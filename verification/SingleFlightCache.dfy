/** A read-through cache with one fetch per key at a time and a grace period for
    values past their time. Calls run as coroutines: between two awaits a call is one
    step, and steps of different calls interleave freely. */
module SingleFlightCache {
  import opened Wrappers

  /** A call name and its arguments. */
  datatype Key = Key(name: string, args: seq<string>)

  datatype Entry = Entry(value: string, fetchedAt: int)

  /** What a call gives back. */
  datatype Outcome = Fresh(value: string) | Stale(value: string) | Raised

  /** Where a call is: waiting for its key's lock, in the middle of a fetch with what
      it saw and when, or done. */
  datatype Call =
    | Waiting(key: Key)
    | Fetching(key: Key, since: int, cached: Option<Entry>)
    | Done(key: Key, outcome: Outcome)

  /** A fetch that succeeded: when it began, and how many times the key had been
      dropped when its value went in. */
  datatype Fetch = Fetch(key: Key, at: int, value: string, epoch: nat)

  type Calls = map<int, Call>
  type Store = map<Key, Entry>
  type Epochs = map<Key, nat>

  function EpochOf(epochs: Epochs, k: Key): nat {
    if k in epochs then epochs[k] else 0
  }

  // ---------------------------------------------------------------- invariants

  /** The lock of a key is held by the one call that is fetching it. */
  ghost predicate LocksOk(locks: map<Key, int>, calls: Calls) {
    && (forall k :: k in locks ==> locks[k] in calls && calls[locks[k]].Fetching? && calls[locks[k]].key == k)
    && (forall c :: c in calls && calls[c].Fetching? ==> calls[c].key in locks && locks[calls[c].key] == c)
  }

  /** An entry is the last fetch of its key. */
  ghost predicate StoreLogged(store: Store, log: seq<Fetch>, epochs: Epochs) {
    forall k :: k in store ==>
      exists i :: 0 <= i < |log| && log[i] == Fetch(k, store[k].fetchedAt, store[k].value, EpochOf(epochs, k))
  }

  /** No fetch of the present epoch is later than the entry, or than anything when the
      entry is gone. */
  ghost predicate StoreLatest(store: Store, log: seq<Fetch>, epochs: Epochs) {
    forall i :: 0 <= i < |log| ==>
      && log[i].epoch <= EpochOf(epochs, log[i].key)
      && (log[i].epoch == EpochOf(epochs, log[i].key) ==>
            log[i].key in store && log[i].at <= store[log[i].key].fetchedAt)
  }

  /** A fetch under way began after every fetch of its key, and a full lifetime after
      those of the present epoch. */
  ghost predicate FetchesLater(calls: Calls, log: seq<Fetch>, epochs: Epochs, ttl: string -> nat) {
    forall c, i :: c in calls && calls[c].Fetching? && 0 <= i < |log| && log[i].key == calls[c].key ==>
      && log[i].at <= calls[c].since
      && (log[i].epoch == EpochOf(epochs, log[i].key) ==> calls[c].since - log[i].at >= ttl(log[i].key.name))
  }

  /** Successful fetches of a key in order, and a lifetime apart unless the key was
      dropped between them. */
  ghost predicate LogSpaced(log: seq<Fetch>, ttl: string -> nat) {
    forall i, j :: 0 <= i < j < |log| && log[i].key == log[j].key ==>
      && log[i].at <= log[j].at && log[i].epoch <= log[j].epoch
      && (log[i].epoch == log[j].epoch ==> log[j].at - log[i].at >= ttl(log[i].key.name))
  }

  /** What a fetch may fall back on was fetched for the same key. */
  ghost predicate CachedLogged(calls: Calls, log: seq<Fetch>) {
    forall c :: c in calls && calls[c].Fetching? && calls[c].cached.Some? ==>
      WasFetched(log, calls[c].key, calls[c].cached.value)
  }

  ghost predicate WasFetched(log: seq<Fetch>, k: Key, e: Entry) {
    exists i :: 0 <= i < |log| && log[i].key == k && log[i].at == e.fetchedAt && log[i].value == e.value
  }

  ghost predicate NothingLater(calls: Calls, log: seq<Fetch>, clock: int) {
    && (forall i :: 0 <= i < |log| ==> log[i].at <= clock)
    && (forall c :: c in calls && calls[c].Fetching? ==> calls[c].since <= clock)
  }

  /** A value that was given back was fetched for the key it was asked for. */
  ghost predicate AnswersLogged(calls: Calls, log: seq<Fetch>) {
    forall c :: c in calls && calls[c].Done? && !calls[c].outcome.Raised? ==>
      exists i :: 0 <= i < |log| && log[i].key == calls[c].key && log[i].value == calls[c].outcome.value
  }

  ghost predicate Inv(
    store: Store, locks: map<Key, int>, calls: Calls, log: seq<Fetch>, epochs: Epochs, clock: int, ttl: string -> nat)
  {
    && LocksOk(locks, calls) && StoreLogged(store, log, epochs) && StoreLatest(store, log, epochs)
    && FetchesLater(calls, log, epochs, ttl) && LogSpaced(log, ttl) && CachedLogged(calls, log)
    && NothingLater(calls, log, clock) && AnswersLogged(calls, log)
  }

  /** At every moment at most one call is fetching a key. */
  lemma OneFetchPerKey(locks: map<Key, int>, calls: Calls, c: int, d: int)
    requires LocksOk(locks, calls) && c in calls && d in calls
    requires calls[c].Fetching? && calls[d].Fetching? && calls[c].key == calls[d].key
    ensures c == d
  {
  }

  /** A held lock has its holder at work on the key. */
  lemma LockIsHeld(locks: map<Key, int>, calls: Calls, k: Key)
    requires LocksOk(locks, calls) && k in locks
    ensures locks[k] in calls && calls[locks[k]].Fetching? && calls[locks[k]].key == k
  {
  }

  /** Of two successful fetches of a key the later began a lifetime after the earlier,
      unless the key was dropped in between. */
  lemma FetchesApart(store: Store, locks: map<Key, int>, calls: Calls, log: seq<Fetch>, epochs: Epochs, clock: int,
        ttl: string -> nat, i: nat, j: nat)
    requires Inv(store, locks, calls, log, epochs, clock, ttl) && i < j < |log| && log[i].key == log[j].key
    ensures log[i].at <= log[j].at <= clock
    ensures log[j].at < log[i].at + ttl(log[i].key.name) ==> log[i].epoch < log[j].epoch
  {
  }

  // --------------------------------------------------------------------- steps

  predicate IsFresh(store: Store, k: Key, now: int, ttl: string -> nat) {
    k in store && now - store[k].fetchedAt < ttl(k.name)
  }

  /** A value seen when a fetch began may stand in for it a while past its time. */
  predicate MayFallBack(c: Call, ttl: string -> nat, maxStale: string -> nat)
    requires c.Fetching?
  {
    c.cached.Some? && c.since - c.cached.value.fetchedAt < ttl(c.key.name) + maxStale(c.key.name)
  }

  /** The present entry, if any, is old enough for a new fetch to be a lifetime away
      from every fetch of this epoch. */
  lemma StartIsLater(store: Store, calls: Calls, log: seq<Fetch>, epochs: Epochs, clock: int, ttl: string -> nat,
        c: int, k: Key)
    requires StoreLatest(store, log, epochs) && FetchesLater(calls, log, epochs, ttl) && NothingLater(calls, log, clock)
    requires !IsFresh(store, k, clock, ttl)
    ensures FetchesLater(calls[c := Fetching(k, clock, if k in store then Some(store[k]) else None)], log, epochs, ttl)
  {
  }

  lemma StoreWasFetched(store: Store, log: seq<Fetch>, epochs: Epochs, k: Key)
    requires StoreLogged(store, log, epochs) && k in store
    ensures WasFetched(log, k, store[k])
  {
  }

  class Cache {
    const ttl: string -> nat
    const maxStale: string -> nat
    var store: Store
    var locks: map<Key, int>
    var calls: Calls
    var clock: int
    ghost var log: seq<Fetch>
    ghost var epochs: Epochs

    ghost predicate Valid()
      reads this
    {
      Inv(store, locks, calls, log, epochs, clock, ttl)
    }

    constructor (ttl: string -> nat, maxStale: string -> nat, clock: int)
      ensures Valid() && store == map[] && calls == map[] && log == []
    {
      this.ttl, this.maxStale, this.clock := ttl, maxStale, clock;
      store, locks, calls, log, epochs := map[], map[], map[], [], map[];
    }

    /** The monotonic clock. */
    method Tick(seconds: nat)
      requires Valid()
      modifies `clock
      ensures Valid() && clock == old(clock) + seconds
    {
      clock := clock + seconds;
    }

    /** A call begins: a fresh value is given back at once, otherwise it queues for the
        lock of its key. */
    method Begin(c: int, k: Key)
      requires Valid() && c !in calls
      modifies `calls
      ensures Valid()
      ensures calls ==
              old(calls)[c := if IsFresh(store, k, clock, ttl) then Done(k, Fresh(store[k].value)) else Waiting(k)]
    {
      hide Inv;
      if k in store && clock - store[k].fetchedAt < ttl(k.name) {
        FreshKeeps(store, locks, calls, log, epochs, clock, ttl, c, k);
        calls := calls[c := Done(k, Fresh(store[k].value))];
      } else {
        WaitKeeps(store, locks, calls, log, epochs, clock, ttl, c, k);
        calls := calls[c := Waiting(k)];
      }
    }

    /** The lock is free: the call takes it and looks again. Another call may have
        filled the entry meanwhile; if not, this one fetches. */
    method Acquire(c: int)
      requires Valid() && c in calls && calls[c].Waiting? && calls[c].key !in locks
      modifies `calls, `locks
      ensures Valid()
      ensures var k := old(calls)[c].key;
              if IsFresh(store, k, clock, ttl)
              then locks == old(locks) && calls == old(calls)[c := Done(k, Fresh(store[k].value))]
              else
                && locks == old(locks)[k := c]
                && calls == old(calls)[c := Fetching(k, clock, if k in store then Some(store[k]) else None)]
    {
      hide Inv;
      var k := calls[c].key;
      if k in store && clock - store[k].fetchedAt < ttl(k.name) {
        FreshKeeps(store, locks, calls, log, epochs, clock, ttl, c, k);
        calls := calls[c := Done(k, Fresh(store[k].value))];
      } else {
        StartKeeps(store, locks, calls, log, epochs, clock, ttl, c, k);
        locks := locks[k := c];
        calls := calls[c := Fetching(k, clock, if k in store then Some(store[k]) else None)];
      }
    }

    /** The fetch came back: its value goes in under the time the fetch began. */
    method FetchSucceeds(c: int, value: string)
      requires Valid() && c in calls && calls[c].Fetching?
      modifies `calls, `locks, `store, `log
      ensures Valid()
      ensures var f := old(calls)[c];
              && store == old(store)[f.key := Entry(value, f.since)] && locks == old(locks) - {f.key}
              && calls == old(calls)[c := Done(f.key, Fresh(value))]
              && log == old(log) + [Fetch(f.key, f.since, value, EpochOf(epochs, f.key))]
              && (f.key in old(store) ==> old(store)[f.key].fetchedAt + ttl(f.key.name) <= f.since)
    {
      hide Inv;
      var f := calls[c];
      StoredIsEarlier(store, locks, calls, log, epochs, clock, ttl, c);
      SucceedKeeps(store, locks, calls, log, epochs, clock, ttl, c, value);
      log := log + [Fetch(f.key, f.since, value, EpochOf(epochs, f.key))];
      store := store[f.key := Entry(value, f.since)];
      locks := locks - {f.key};
      calls := calls[c := Done(f.key, Fresh(value))];
    }

    /** The fetch failed: a value not too far past its time stands in, or the failure
        is passed on. Nothing is stored. */
    method FetchFails(c: int)
      requires Valid() && c in calls && calls[c].Fetching?
      modifies `calls, `locks
      ensures Valid()
      ensures var f := old(calls)[c];
              && locks == old(locks) - {f.key}
              && calls == old(calls)[c := Done(f.key, if MayFallBack(f, ttl, maxStale) then Stale(f.cached.value.value)
                                               else Raised)]
              && (calls[c].outcome.Stale? ==>
                    && WasFetched(log, f.key, f.cached.value)
                    && f.since - f.cached.value.fetchedAt < ttl(f.key.name) + maxStale(f.key.name))
    {
      assert CachedLogged(calls, log);
      hide Inv, WasFetched;
      var f := calls[c];
      var outcome := Raised;
      if f.cached.Some? && f.since - f.cached.value.fetchedAt < ttl(f.key.name) + maxStale(f.key.name) {
        outcome := Stale(f.cached.value.value);
      }
      FailKeeps(store, locks, calls, log, epochs, clock, ttl, c, outcome);
      locks := locks - {f.key};
      calls := calls[c := Done(f.key, outcome)];
    }

    /** A call cancelled in the middle of its fetch gives the lock back. */
    method Cancel(c: int)
      requires Valid() && c in calls && calls[c].Fetching?
      modifies `calls, `locks
      ensures Valid()
      ensures locks == old(locks) - {old(calls)[c].key} && calls == old(calls)[c := Done(old(calls)[c].key, Raised)]
    {
      hide Inv;
      FailKeeps(store, locks, calls, log, epochs, clock, ttl, c, Raised);
      locks := locks - {calls[c].key};
      calls := calls[c := Done(calls[c].key, Raised)];
    }

    /** Drops one entry. */
    method Invalidate(k: Key)
      requires Valid()
      modifies `store, `epochs
      ensures Valid()
      ensures store == old(store) - {k}
      ensures epochs == if k in old(store) then old(epochs)[k := EpochOf(old(epochs), k) + 1] else old(epochs)
    {
      hide Inv;
      if k in store {
        DropKeeps(store, locks, calls, log, epochs, clock, ttl, k);
        epochs := epochs[k := EpochOf(epochs, k) + 1];
        store := store - {k};
      } else {
        assert store - {k} == store;
      }
    }

    /** Drops every entry of a call name. */
    method InvalidatePrefix(name: string)
      requires Valid()
      modifies `store, `epochs
      ensures Valid()
      ensures store == old(store) - NamedKeys(old(store), name)
      ensures forall k :: k in store <==> k in old(store) && k.name != name
    {
      hide Inv, NamedKeys;
      var stale := NamedKeys(store, name);
      ghost var all, dropped := stale, {};
      while stale != {}
        invariant Valid() && stale + dropped == all
        invariant store == old(store) - dropped
      {
        var k :| k in stale;
        Invalidate(k);
        stale, dropped := stale - {k}, dropped + {k};
      }
      assert dropped == all;
      NamedAre(old(store), name);
    }
  }

  function NamedKeys(store: Store, name: string): set<Key> {
    set k | k in store && k.name == name
  }

  lemma NamedAre(store: Store, name: string)
    ensures forall k :: k in NamedKeys(store, name) <==> k in store && k.name == name
  {
  }

  lemma FreshKeeps(store: Store, locks: map<Key, int>, calls: Calls, log: seq<Fetch>, epochs: Epochs, clock: int,
        ttl: string -> nat, c: int, k: Key)
    requires Inv(store, locks, calls, log, epochs, clock, ttl) && (c in calls ==> calls[c].Waiting?) && k in store
    ensures Inv(store, locks, calls[c := Done(k, Fresh(store[k].value))], log, epochs, clock, ttl)
  {
    StoreWasFetched(store, log, epochs, k);
    hide StoreLogged, StoreLatest, LogSpaced;
  }

  lemma WaitKeeps(store: Store, locks: map<Key, int>, calls: Calls, log: seq<Fetch>, epochs: Epochs, clock: int,
        ttl: string -> nat, c: int, k: Key)
    requires Inv(store, locks, calls, log, epochs, clock, ttl) && c !in calls
    ensures Inv(store, locks, calls[c := Waiting(k)], log, epochs, clock, ttl)
  {
    hide StoreLogged, StoreLatest, LogSpaced, WasFetched;
  }

  lemma StartKeeps(store: Store, locks: map<Key, int>, calls: Calls, log: seq<Fetch>, epochs: Epochs, clock: int,
        ttl: string -> nat, c: int, k: Key)
    requires Inv(store, locks, calls, log, epochs, clock, ttl) && c in calls && calls[c] == Waiting(k) && k !in locks
    requires !IsFresh(store, k, clock, ttl)
    ensures Inv(store, locks[k := c], calls[c := Fetching(k, clock, if k in store then Some(store[k]) else None)], log,
                epochs, clock, ttl)
  {
    StartIsLater(store, calls, log, epochs, clock, ttl, c, k);
    if k in store {
      StoreWasFetched(store, log, epochs, k);
    }
    hide StoreLogged, StoreLatest, FetchesLater, LogSpaced, WasFetched, IsFresh;
  }

  /** What a fetch replaces was fetched a lifetime before it. */
  lemma StoredIsEarlier(store: Store, locks: map<Key, int>, calls: Calls, log: seq<Fetch>, epochs: Epochs,
        clock: int, ttl: string -> nat, c: int)
    requires Inv(store, locks, calls, log, epochs, clock, ttl) && c in calls && calls[c].Fetching?
    ensures calls[c].key in store ==> store[calls[c].key].fetchedAt + ttl(calls[c].key.name) <= calls[c].since
  {
    var k := calls[c].key;
    if k in store {
      var i :| 0 <= i < |log| && log[i] == Fetch(k, store[k].fetchedAt, store[k].value, EpochOf(epochs, k));
      assert FetchesLater(calls, log, epochs, ttl);
    }
  }

  lemma SucceedLog(store: Store, locks: map<Key, int>, calls: Calls, log: seq<Fetch>, epochs: Epochs, clock: int,
        ttl: string -> nat, c: int, value: string)
    requires Inv(store, locks, calls, log, epochs, clock, ttl) && c in calls && calls[c].Fetching?
    ensures var f := calls[c];
            var more := log + [Fetch(f.key, f.since, value, EpochOf(epochs, f.key))];
            && LogSpaced(more, ttl) && StoreLatest(store[f.key := Entry(value, f.since)], more, epochs)
            && NothingLater(calls[c := Done(f.key, Fresh(value))], more, clock)
  {
    assert StoreLatest(store, log, epochs) && FetchesLater(calls, log, epochs, ttl) && LogSpaced(log, ttl);
    assert NothingLater(calls, log, clock);
    hide Inv;
  }

  lemma SucceedStore(store: Store, calls: Calls, log: seq<Fetch>, epochs: Epochs, f: Fetch)
    requires StoreLogged(store, log, epochs) && f.epoch == EpochOf(epochs, f.key)
    ensures StoreLogged(store[f.key := Entry(f.value, f.at)], log + [f], epochs)
  {
    var more, next := log + [f], store[f.key := Entry(f.value, f.at)];
    forall k | k in next
      ensures exists i :: 0 <= i < |more| && more[i] == Fetch(k, next[k].fetchedAt, next[k].value, EpochOf(epochs, k))
    {
      if k == f.key {
        assert more[|log|] == f;
      } else {
        var i :| 0 <= i < |log| && log[i] == Fetch(k, store[k].fetchedAt, store[k].value, EpochOf(epochs, k));
        assert more[i] == log[i];
      }
    }
  }

  lemma WasFetchedMore(log: seq<Fetch>, f: Fetch, k: Key, e: Entry)
    requires WasFetched(log, k, e)
    ensures WasFetched(log + [f], k, e)
  {
    var i :| 0 <= i < |log| && log[i].key == k && log[i].at == e.fetchedAt && log[i].value == e.value;
    assert (log + [f])[i] == log[i];
  }

  lemma SucceedCalls(locks: map<Key, int>, calls: Calls, log: seq<Fetch>, epochs: Epochs, ttl: string -> nat, c: int,
        f: Fetch)
    requires LocksOk(locks, calls) && FetchesLater(calls, log, epochs, ttl) && CachedLogged(calls, log)
    requires AnswersLogged(calls, log)
    requires c in calls && calls[c].Fetching? && f.key == calls[c].key
    ensures var next := calls[c := Done(f.key, Fresh(f.value))];
            && LocksOk(locks - {f.key}, next) && FetchesLater(next, log + [f], epochs, ttl)
            && CachedLogged(next, log + [f]) && AnswersLogged(next, log + [f])
  {
    var next, more := calls[c := Done(f.key, Fresh(f.value))], log + [f];
    assert more[|log|] == f;
    forall d | d in next && next[d].Fetching? && next[d].cached.Some?
      ensures WasFetched(more, next[d].key, next[d].cached.value)
    {
      WasFetchedMore(log, f, next[d].key, next[d].cached.value);
    }
    forall d | d in next && next[d].Done? && !next[d].outcome.Raised?
      ensures exists i :: 0 <= i < |more| && more[i].key == next[d].key && more[i].value == next[d].outcome.value
    {
      if d != c {
        var i :| 0 <= i < |log| && log[i].key == calls[d].key && log[i].value == calls[d].outcome.value;
        assert more[i] == log[i];
      }
    }
  }

  lemma SucceedKeeps(store: Store, locks: map<Key, int>, calls: Calls, log: seq<Fetch>, epochs: Epochs, clock: int,
        ttl: string -> nat, c: int, value: string)
    requires Inv(store, locks, calls, log, epochs, clock, ttl) && c in calls && calls[c].Fetching?
    ensures var f := calls[c];
            Inv(store[f.key := Entry(value, f.since)], locks - {f.key}, calls[c := Done(f.key, Fresh(value))],
                log + [Fetch(f.key, f.since, value, EpochOf(epochs, f.key))], epochs, clock, ttl)
  {
    var f := Fetch(calls[c].key, calls[c].since, value, EpochOf(epochs, calls[c].key));
    SucceedLog(store, locks, calls, log, epochs, clock, ttl, c, value);
    SucceedStore(store, calls, log, epochs, f);
    SucceedCalls(locks, calls, log, epochs, ttl, c, f);
    hide LocksOk, StoreLogged, StoreLatest, FetchesLater, LogSpaced, CachedLogged, NothingLater, AnswersLogged;
  }

  lemma FailKeeps(store: Store, locks: map<Key, int>, calls: Calls, log: seq<Fetch>, epochs: Epochs, clock: int,
        ttl: string -> nat, c: int, outcome: Outcome)
    requires Inv(store, locks, calls, log, epochs, clock, ttl) && c in calls && calls[c].Fetching?
    requires outcome == Raised || (calls[c].cached.Some? && outcome == Stale(calls[c].cached.value.value))
    ensures Inv(store, locks - {calls[c].key}, calls[c := Done(calls[c].key, outcome)], log, epochs, clock, ttl)
  {
    if outcome.Stale? {
      assert WasFetched(log, calls[c].key, calls[c].cached.value);
    }
    hide StoreLogged, StoreLatest, LogSpaced;
  }

  lemma DropKeeps(store: Store, locks: map<Key, int>, calls: Calls, log: seq<Fetch>, epochs: Epochs, clock: int,
        ttl: string -> nat, k: Key)
    requires Inv(store, locks, calls, log, epochs, clock, ttl)
    ensures Inv(store - {k}, locks, calls, log, epochs[k := EpochOf(epochs, k) + 1], clock, ttl)
  {
    hide LocksOk, LogSpaced, CachedLogged, NothingLater, AnswersLogged;
  }
}
