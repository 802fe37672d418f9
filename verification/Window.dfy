// The sliding window of outstanding requests: what each lock section does to the pending map.
module Window {
  import opened Wrappers
  import opened Time

  datatype WindowError = DuplicateKey | WindowFull | OfferTimeout

  datatype Future<K, P> = Future(key: K, params: P, createdAt: nat, timeout: nat)

  predicate IsExpired<K, P>(f: Future<K, P>, now: nat) {
    Elapsed(now, f.createdAt) > f.timeout
  }

  // The lock sections on a pending map, for any kind of entry.

  function TryInsert<K, F>(pending: map<K, F>, maxSize: nat, key: K, f: F): (r: (map<K, F>, Result<F, WindowError>)) {
    if key in pending then (pending, Err(DuplicateKey))
    else if |pending| >= maxSize then (pending, Err(WindowFull))
    else (pending[key := f], Ok(f))
  }

  function Without<K, F>(pending: map<K, F>, keys: seq<K>): (r: map<K, F>) {
    map k | k in pending && k !in keys :: pending[k]
  }

  function Remaining<K, P>(pending: map<K, Future<K, P>>, now: nat): (r: map<K, Future<K, P>>) {
    map k | k in pending && !IsExpired(pending[k], now) :: pending[k]
  }

  class Window<K(==), P> {
    const maxSize: nat
    const defaultTimeout: nat
    var pending: map<K, Future<K, P>>

    constructor (maxSize: nat, defaultTimeout: nat)
      ensures this.maxSize == maxSize && this.defaultTimeout == defaultTimeout && pending == map[]
    {
      this.maxSize, this.defaultTimeout, pending := maxSize, defaultTimeout, map[];
    }

    method TryOffer(key: K, params: P, now: nat) returns (r: Result<Future<K, P>, WindowError>)
      modifies this
      ensures (pending, r) == TryInsert(old(pending), maxSize, key, Future(key, params, now, defaultTimeout))
      ensures r.Ok? <==> key !in old(pending) && |old(pending)| < maxSize
      ensures r == Err(DuplicateKey) <==> key in old(pending)
      ensures r == Err(WindowFull) <==> key !in old(pending) && |old(pending)| >= maxSize
      ensures pending == if r.Ok? then old(pending)[key := Future(key, params, now, defaultTimeout)] else old(pending)
      ensures r.Ok? ==> r.value == Future(key, params, now, defaultTimeout)
    {
      if key in pending {
        return Err(DuplicateKey);
      }
      if |pending| >= maxSize {
        return Err(WindowFull);
      }
      var future := Future(key, params, now, defaultTimeout);
      pending := pending[key := future];
      r := Ok(future);
    }

    // The lock section of complete and fail; when it removed something, the caller owes the waiters
    // a notification.
    method Remove(key: K) returns (removed: bool)
      modifies this
      ensures removed == (key in old(pending)) && pending == old(pending) - {key}
    {
      removed := key in pending;
      pending := pending - {key};
    }

    // The lock section of cancel, which hands the entry back.
    method Cancel(key: K) returns (removed: Option<Future<K, P>>)
      modifies this
      ensures removed == if key in old(pending) then Some(old(pending)[key]) else None
      ensures pending == old(pending) - {key}
    {
      removed := if key in pending then Some(pending[key]) else None;
      pending := pending - {key};
    }

    // One tick of the monitor: collect what has expired, then remove it key by key.
    method ExpireTick(now: nat) returns (expiredKeys: seq<K>, anyRemoved: bool)
      modifies this
      ensures pending == Remaining(old(pending), now) == Without(old(pending), expiredKeys)
      ensures forall k :: k in pending <==> k in old(pending) && now <= old(pending)[k].createdAt + old(pending)[k].timeout
      ensures forall k :: k in expiredKeys <==> k in old(pending) && IsExpired(old(pending)[k], now)
      ensures forall i, j :: 0 <= i < j < |expiredKeys| ==> expiredKeys[i] != expiredKeys[j]
      ensures anyRemoved <==> pending != old(pending)
    {
      expiredKeys := [];
      var todo := pending.Keys;
      while todo != {}
        invariant todo <= pending.Keys && pending == old(pending)
        invariant forall k :: k in expiredKeys <==> k in pending.Keys - todo && IsExpired(pending[k], now)
        invariant forall i, j :: 0 <= i < j < |expiredKeys| ==> expiredKeys[i] != expiredKeys[j]
      {
        var key :| key in todo;
        todo := todo - {key};
        if IsExpired(pending[key], now) {
          expiredKeys := expiredKeys + [key];
        }
      }
      anyRemoved := false;
      var i := 0;
      while i < |expiredKeys|
        invariant 0 <= i <= |expiredKeys|
        invariant pending == Without(old(pending), expiredKeys[..i])
        invariant anyRemoved == (i > 0)
      {
        var key := expiredKeys[i];
        assert key in expiredKeys && key !in expiredKeys[..i];
        if key in pending {
          anyRemoved := true;
          pending := pending - {key};
        }
        i := i + 1;
      }
      assert expiredKeys[..i] == expiredKeys;
      if i > 0 {
        assert expiredKeys[0] in expiredKeys;
        assert expiredKeys[0] in old(pending) && expiredKeys[0] !in pending;
      }
    }
  }
}
