/**
 * The optimistic-update queue of `useOptimisticUpdates`
 * (src/hooks/useOptimisticUpdates.ts): pending entries that can be removed,
 * rolled back one id at a time or all at once, or evicted by age with rollback.
 * A rollback callback is an opaque token; invoking it appends the token to a trace.
 */
module OptimisticUpdates {
  import opened Wrappers

  /** Identifies one rollback callback. */
  type Rollback = nat

  datatype Update<T> = Update(id: string, data: T, timestamp: int, rollback: Rollback)

  /** The default `maxAge` of `clearOldUpdates`, in milliseconds. */
  const DefaultMaxAge: int := 30000

  /** An entry older than `maxAge` at time `now`. */
  predicate IsStale<T>(u: Update<T>, now: int, maxAge: int) {
    now - u.timestamp > maxAge
  }

  /** `prev.filter(update => update.id !== id)`. */
  function WithoutId<T>(us: seq<Update<T>>, id: string): (r: seq<Update<T>>)
    ensures |r| <= |us|
    ensures forall i :: 0 <= i < |r| ==> r[i].id != id
    ensures forall i :: 0 <= i < |r| ==> r[i] in us
    ensures forall i :: 0 <= i < |us| && us[i].id != id ==> us[i] in r
  {
    if us == [] then []
    else
      var u := us[|us| - 1];
      WithoutId(us[..|us| - 1], id) + (if u.id != id then [u] else [])
  }

  /** The entries `clearOldUpdates` keeps, in order. */
  function Unexpired<T>(us: seq<Update<T>>, now: int, maxAge: int): (r: seq<Update<T>>)
    ensures |r| <= |us|
    ensures forall i :: 0 <= i < |r| ==> !IsStale(r[i], now, maxAge)
  {
    if us == [] then []
    else
      var u := us[|us| - 1];
      Unexpired(us[..|us| - 1], now, maxAge) + (if !IsStale(u, now, maxAge) then [u] else [])
  }

  /** The entries `clearOldUpdates` evicts, in order. */
  function Expired<T>(us: seq<Update<T>>, now: int, maxAge: int): (r: seq<Update<T>>)
    ensures |r| <= |us|
    ensures forall i :: 0 <= i < |r| ==> IsStale(r[i], now, maxAge)
  {
    if us == [] then []
    else
      var u := us[|us| - 1];
      Expired(us[..|us| - 1], now, maxAge) + (if IsStale(u, now, maxAge) then [u] else [])
  }

  /** The rollback tokens of a list of entries, in order. */
  function Rollbacks<T>(us: seq<Update<T>>): (r: seq<Rollback>)
    ensures |r| == |us| && forall i :: 0 <= i < |us| ==> r[i] == us[i].rollback
  {
    seq(|us|, i requires 0 <= i < |us| => us[i].rollback)
  }

  /** `pendingUpdates.find(u => u.id === id)`: the first entry with that id. */
  function FindUpdate<T>(us: seq<Update<T>>, id: string): (r: Option<Update<T>>)
    ensures r.None? <==> forall i :: 0 <= i < |us| ==> us[i].id != id
    ensures r.Some? ==>
      exists i :: 0 <= i < |us| && us[i] == r.value && us[i].id == id && (forall j :: 0 <= j < i ==> us[j].id != id)
  {
    if us == [] then None
    else if us[0].id == id then Some(us[0])
    else
      var r := FindUpdate(us[1..], id);
      assert forall i :: 1 <= i < |us| ==> us[i] == us[1..][i - 1];
      r
  }

  // ---- lemmas ----

  /** Removing an id that no entry carries changes nothing. */
  lemma {:induction false} WithoutAbsentId<T>(us: seq<Update<T>>, id: string)
    requires forall i :: 0 <= i < |us| ==> us[i].id != id
    ensures WithoutId(us, id) == us
  {
    if us != [] {
      WithoutAbsentId(us[..|us| - 1], id);
      assert us == us[..|us| - 1] + [us[|us| - 1]];
    }
  }

  /** Removal works entry by entry: on a concatenation it is the concatenation of the removals. */
  lemma {:induction false} WithoutIdConcat<T>(a: seq<Update<T>>, b: seq<Update<T>>, id: string)
    ensures WithoutId(a + b, id) == WithoutId(a, id) + WithoutId(b, id)
  {
    if b != [] {
      var b' := b[..|b| - 1];
      assert (a + b)[..|a + b| - 1] == a + b';
      WithoutIdConcat(a, b', id);
    } else {
      assert a + b == a;
    }
  }

  /** Removing twice is removing once. */
  lemma WithoutIdIdempotent<T>(us: seq<Update<T>>, id: string)
    ensures WithoutId(WithoutId(us, id), id) == WithoutId(us, id)
  {
    WithoutAbsentId(WithoutId(us, id), id);
  }

  /** Eviction loses nothing: every entry is either kept or rolled back. */
  lemma {:induction false} EvictionPartitions<T>(us: seq<Update<T>>, now: int, maxAge: int)
    ensures multiset(Unexpired(us, now, maxAge)) + multiset(Expired(us, now, maxAge)) == multiset(us)
  {
    if us != [] {
      var init, u := us[..|us| - 1], us[|us| - 1];
      EvictionPartitions(init, now, maxAge);
      assert us == init + [u];
      if IsStale(u, now, maxAge) {
        assert Expired(us, now, maxAge) == Expired(init, now, maxAge) + [u];
      } else {
        assert Unexpired(us, now, maxAge) == Unexpired(init, now, maxAge) + [u];
      }
    }
  }

  /** So the kept and the evicted entries together are as many as there were. */
  lemma EvictionCounts<T>(us: seq<Update<T>>, now: int, maxAge: int)
    ensures |Unexpired(us, now, maxAge)| + |Expired(us, now, maxAge)| == |us|
  {
    EvictionPartitions(us, now, maxAge);
    assert |multiset(Unexpired(us, now, maxAge)) + multiset(Expired(us, now, maxAge))| == |multiset(us)|;
  }

  /** When nothing is older than `maxAge`, eviction keeps everything and rolls back nothing. */
  lemma {:induction false} NothingStale<T>(us: seq<Update<T>>, now: int, maxAge: int)
    requires forall i :: 0 <= i < |us| ==> !IsStale(us[i], now, maxAge)
    ensures Unexpired(us, now, maxAge) == us && Expired(us, now, maxAge) == []
  {
    if us != [] {
      NothingStale(us[..|us| - 1], now, maxAge);
      assert us == us[..|us| - 1] + [us[|us| - 1]];
    }
  }

  /** The prefix step of the eviction loop. */
  lemma EvictionStep<T>(us: seq<Update<T>>, i: nat, now: int, maxAge: int)
    requires i < |us|
    ensures Unexpired(us[..i + 1], now, maxAge) ==
      Unexpired(us[..i], now, maxAge) + (if !IsStale(us[i], now, maxAge) then [us[i]] else [])
    ensures Expired(us[..i + 1], now, maxAge) ==
      Expired(us[..i], now, maxAge) + (if IsStale(us[i], now, maxAge) then [us[i]] else [])
  {
    assert us[..i + 1][..i] == us[..i];
  }

  /** The hook's `pendingUpdates` state, with the trace of invoked rollbacks. */
  class PendingUpdates<T> {
    var pendingUpdates: seq<Update<T>>
    var rollbackTrace: seq<Rollback>

    constructor ()
      ensures pendingUpdates == [] && rollbackTrace == []
    {
      pendingUpdates, rollbackTrace := [], [];
    }

    /** `now` stands for `Date.now()`. */
    method AddOptimisticUpdate(id: string, data: T, rollback: Rollback, now: int) returns (update: Update<T>)
      modifies this
      ensures update == Update(id, data, now, rollback)
      ensures pendingUpdates == old(pendingUpdates) + [update]
      ensures rollbackTrace == old(rollbackTrace)
    {
      update := Update(id, data, now, rollback);
      pendingUpdates := pendingUpdates + [update];
    }

    method RemoveOptimisticUpdate(id: string)
      modifies this
      ensures pendingUpdates == WithoutId(old(pendingUpdates), id)
      ensures rollbackTrace == old(rollbackTrace)
    {
      pendingUpdates := WithoutId(pendingUpdates, id);
    }

    method RollbackUpdate(id: string)
      modifies this
      ensures FindUpdate(old(pendingUpdates), id).None? ==>
        pendingUpdates == old(pendingUpdates) && rollbackTrace == old(rollbackTrace)
      ensures FindUpdate(old(pendingUpdates), id).Some? ==>
        && rollbackTrace == old(rollbackTrace) + [FindUpdate(old(pendingUpdates), id).value.rollback]
        && pendingUpdates == WithoutId(old(pendingUpdates), id)
    {
      var update := FindUpdate(pendingUpdates, id);
      if update.Some? {
        rollbackTrace := rollbackTrace + [update.value.rollback];
        RemoveOptimisticUpdate(id);
      }
    }

    method RollbackAllUpdates()
      modifies this
      ensures rollbackTrace == old(rollbackTrace) + Rollbacks(old(pendingUpdates))
      ensures pendingUpdates == []
    {
      var i := 0;
      while i < |pendingUpdates|
        invariant 0 <= i <= |pendingUpdates|
        invariant pendingUpdates == old(pendingUpdates)
        invariant rollbackTrace == old(rollbackTrace) + Rollbacks(pendingUpdates[..i])
      {
        rollbackTrace := rollbackTrace + [pendingUpdates[i].rollback];
        i := i + 1;
      }
      assert pendingUpdates[..i] == pendingUpdates;
      pendingUpdates := [];
    }

    method ClearOldUpdates(now: int, maxAge: int)
      modifies this
      ensures pendingUpdates == Unexpired(old(pendingUpdates), now, maxAge)
      ensures rollbackTrace == old(rollbackTrace) + Rollbacks(Expired(old(pendingUpdates), now, maxAge))
    {
      var kept: seq<Update<T>> := [];
      var i := 0;
      while i < |pendingUpdates|
        invariant 0 <= i <= |pendingUpdates|
        invariant pendingUpdates == old(pendingUpdates)
        invariant kept == Unexpired(pendingUpdates[..i], now, maxAge)
        invariant rollbackTrace == old(rollbackTrace) + Rollbacks(Expired(pendingUpdates[..i], now, maxAge))
      {
        var update := pendingUpdates[i];
        EvictionStep(pendingUpdates, i, now, maxAge);
        if now - update.timestamp > maxAge {
          rollbackTrace := rollbackTrace + [update.rollback];
        } else {
          kept := kept + [update];
        }
        i := i + 1;
      }
      assert pendingUpdates[..i] == pendingUpdates;
      pendingUpdates := kept;
    }

    /** `clearOldUpdates()` with its default age. */
    method ClearOldUpdatesDefault(now: int)
      modifies this
      ensures pendingUpdates == Unexpired(old(pendingUpdates), now, DefaultMaxAge)
      ensures rollbackTrace == old(rollbackTrace) + Rollbacks(Expired(old(pendingUpdates), now, DefaultMaxAge))
    {
      ClearOldUpdates(now, DefaultMaxAge);
    }
  }
}
