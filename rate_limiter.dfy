/** The sign-in rate limiter (lib/rate-limiter.ts): a counter per identifier in a
    shared key-value store, five attempts allowed per window. */
module RateLimiter {
  import opened Common

  const MaxAttempts: nat := 5
  /** Seconds until a blocked identifier may try again (15 minutes). */
  const WindowSeconds: nat := 60 * 15

  /** The key-value store shared by every limiter: counters by key. */
  class Store {
    var counts: map<string, nat>

    constructor()
      ensures counts == map[]
    {
      counts := map[];
    }

    /** The counter under `key`, 0 when there is none. */
    function Count(key: string): nat
      reads this
    {
      if key in counts then counts[key] else 0
    }
  }

  /** Whether a counter value is still within the limit. */
  predicate Allowed(count: nat)
  {
    count <= MaxAttempts
  }

  /** `max(0, 5 - count)` */
  function Remaining(count: nat): (r: nat)
    ensures r <= MaxAttempts
    ensures count <= MaxAttempts ==> r + count == MaxAttempts
    ensures count >= MaxAttempts ==> r == 0
  {
    if count >= MaxAttempts then 0 else MaxAttempts - count
  }

  function KeyFor(identifier: string): (key: string)
    ensures StartsWith(key, "rate_limit:") && key[|"rate_limit:"|..] == identifier
  {
    var key := "rate_limit:" + identifier;
    assert key[..|"rate_limit:"|] == "rate_limit:";
    key
  }

  /** Distinct identifiers get distinct counters. */
  lemma KeysAreDistinct(a: string, b: string)
    requires a != b
    ensures KeyFor(a) != KeyFor(b)
  {
  }

  class Limiter {
    const key: string
    const store: Store

    constructor(identifier: string, store: Store)
      ensures key == KeyFor(identifier) && this.store == store
    {
      key := KeyFor(identifier);
      this.store := store;
    }

    /** `increment`: adds one to this limiter's counter and reports whether the
        new count is within the limit; no other counter changes. */
    method Increment() returns (allowed: bool)
      modifies store
      ensures store.counts == old(store.counts)[key := old(store.Count(key)) + 1]
      ensures allowed <==> Allowed(store.Count(key))
    {
      var count := store.Count(key) + 1;
      store.counts := store.counts[key := count];
      allowed := count <= MaxAttempts;
    }

    /** `getRemainingAttempts`: between 0 and 5, and 5 when there is no counter. */
    method GetRemainingAttempts() returns (remaining: nat)
      ensures remaining == Remaining(store.Count(key))
      ensures key !in store.counts ==> remaining == MaxAttempts
    {
      var count := if key in store.counts then store.counts[key] else 0;
      remaining := Remaining(count);
    }

    /** `k` calls of `increment` in a row: they report `Run` from the counter's
        starting value, and the counter ends `k` higher; no other counter changes. */
    method IncrementTimes(k: nat) returns (flags: seq<bool>)
      modifies store
      ensures flags == Run(old(store.Count(key)), k)
      ensures store.Count(key) == old(store.Count(key)) + k
      ensures k > 0 ==> store.counts == old(store.counts)[key := old(store.Count(key)) + k]
      ensures k == 0 ==> store.counts == old(store.counts)
    {
      ghost var start := store.Count(key);
      flags := [];
      var i := 0;
      while i < k
        invariant 0 <= i <= k
        invariant store.Count(key) == start + i
        invariant i > 0 ==> store.counts == old(store.counts)[key := start + i]
        invariant i == 0 ==> store.counts == old(store.counts)
        invariant flags == Run(start, k)[..i]
      {
        var allowed := Increment();
        RunAllowed(start, k, i);
        assert Run(start, k)[..i + 1] == Run(start, k)[..i] + [Run(start, k)[i]];
        flags := flags + [allowed];
        i := i + 1;
      }
      assert Run(start, k)[..k] == Run(start, k);
    }

    /** `reset`: deletes this limiter's counter, so all five attempts are back. */
    method Reset()
      modifies store
      ensures store.counts == old(store.counts) - {key}
      ensures Remaining(store.Count(key)) == MaxAttempts
    {
      store.counts := store.counts - {key};
    }
  }

  datatype RateLimitResult = RateLimitResult(allowed: bool, remaining: nat, resetIn: Option<nat>)

  /** `checkRateLimit`: counts one attempt for `identifier`; `resetIn` is the
      window length exactly when the attempt is refused. */
  method CheckRateLimit(identifier: string, store: Store) returns (r: RateLimitResult)
    modifies store
    ensures var key := KeyFor(identifier);
            var count := old(store.Count(key)) + 1;
            && store.counts == old(store.counts)[key := count]
            && r.allowed == Allowed(count)
            && r.remaining == Remaining(count)
            && (r.resetIn.Some? <==> !r.allowed)
            && (r.resetIn.Some? ==> r.resetIn.value == WindowSeconds)
  {
    var limiter := new Limiter(identifier, store);
    var allowed := limiter.Increment();
    var remaining := limiter.GetRemainingAttempts();
    r := RateLimitResult(allowed, remaining, if allowed then None else Some(WindowSeconds));
  }

  /** What `k` calls of `Increment` in a row report, starting from counter value
      `start`: each call adds one and compares the new count with the limit. */
  function Run(start: nat, k: nat): (flags: seq<bool>)
    ensures |flags| == k
    decreases k
  {
    if k == 0 then [] else [Allowed(start + 1)] + Run(start + 1, k - 1)
  }

  /** The i-th increment of a run is allowed exactly when `start + i + 1 <= 5`. */
  lemma {:induction false} RunAllowed(start: nat, k: nat, i: nat)
    requires i < k
    ensures Run(start, k)[i] <==> start + i + 1 <= MaxAttempts
    decreases k
  {
    if i > 0 {
      RunAllowed(start + 1, k - 1, i - 1);
    }
  }

  /** From an empty store, the first five attempts are allowed and the sixth is refused. */
  lemma FiveAllowedThenDenied()
    ensures Run(0, 6) == [true, true, true, true, true, false]
  {
    forall i | 0 <= i < 6 ensures Run(0, 6)[i] == [true, true, true, true, true, false][i] {
      RunAllowed(0, 6, i);
    }
  }

  /** Six sign-in attempts for one identifier against an empty store: five are
      allowed and the sixth is refused, and the counter stands at six. */
  method SixAttemptsOnFreshStore(identifier: string) returns (flags: seq<bool>, count: nat)
    ensures flags == [true, true, true, true, true, false]
    ensures count == 6
  {
    var store := new Store();
    var limiter := new Limiter(identifier, store);
    flags := limiter.IncrementTimes(6);
    FiveAllowedThenDenied();
    count := store.Count(limiter.key);
  }
}
