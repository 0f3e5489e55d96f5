/** Exponential backoff per resource, and the gate that keeps a resource away from SM until its time has come. */
module RetryStore {
  import opened Options

  /** Durations and times are 64-bit counts of nanoseconds. */
  const TWO_63 := 0x8000_0000_0000_0000

  function Pow2(n: nat): (p: nat)
    ensures p > 0
  {
    if n == 0 then 1 else 2 * Pow2(n - 1)
  }

  function Min(a: int, b: int): int {
    if a < b then a else b
  }

  /**
   calculateBackoff, for a base whose scaling by powers of two is exact in a 64-bit float.  The bound it
   tests, math.MaxInt64, rounds to 2^63 there, so a product of exactly 2^63 slips through to the
   conversion, whose result `wrapped` is up to the platform.
   */
  function Backoff(base: nat, max: nat, wrapped: int, attempt: nat): int {
    var product := base * Pow2(attempt);
    if product > TWO_63 then max
    else
      var calculated := if product == TWO_63 then wrapped else product;
      if calculated > max then max else calculated
  }

  /** The delay the design asks for. */
  function Capped(base: nat, max: nat, attempt: nat): nat {
    Min(base * Pow2(attempt), max)
  }

  /** The delay is the capped exponential unless the product is exactly 2^63 and converts to less than the cap. */
  lemma BackoffExact(base: nat, max: nat, wrapped: int, attempt: nat)
    requires max < TWO_63
    ensures Backoff(base, max, wrapped, attempt) == Capped(base, max, attempt) <==>
            !(base * Pow2(attempt) == TWO_63 && wrapped < max)
  {
  }

  lemma {:induction false} Pow2Monotone(m: nat, n: nat)
    requires m <= n
    ensures Pow2(m) <= Pow2(n)
  {
    if m < n {
      Pow2Monotone(m, n - 1);
    }
  }

  /** Delays never shrink from one attempt to a later one, and never exceed the cap. */
  lemma CappedMonotone(base: nat, max: nat, m: nat, n: nat)
    requires m <= n
    ensures Capped(base, max, m) <= Capped(base, max, n) <= max
  {
    Pow2Monotone(m, n);
    ProductMonotone(base, Pow2(m), Pow2(n));
  }

  lemma ProductMonotone(base: nat, x: nat, y: nat)
    requires x <= y
    ensures base * x <= base * y
  {
  }

  /** The delays of the first `n` failures in a row. */
  function TotalDelay(base: nat, max: nat, n: nat): nat {
    if n == 0 then 0 else TotalDelay(base, max, n - 1) + Capped(base, max, n)
  }

  lemma {:induction false} UncappedTotal(base: nat, max: nat, n: nat)
    requires base * Pow2(n) <= max
    ensures TotalDelay(base, max, n) == base * (Pow2(n + 1) - 2)
  {
    if n > 0 {
      Pow2Monotone(n - 1, n);
      ProductMonotone(base, Pow2(n - 1), Pow2(n));
      UncappedTotal(base, max, n - 1);
      calc {
        TotalDelay(base, max, n);
        base * (Pow2(n) - 2) + base * Pow2(n);
        base * (Pow2(n + 1) - 2);
      }
    }
  }

  /** What is remembered of a resource whose operations fail. */
  datatype RetryState = RetryState(attempts: nat, nextRetry: int, correlationId: string)

  /** The gate of both reconcilers: with a retry pending, nothing happens before its time. */
  predicate Open(s: Option<RetryState>, now: int) {
    s.Some? ==> now >= s.value.nextRetry
  }

  function Registered(s: Option<RetryState>, base: nat, max: nat, wrapped: int, now: int, id: string): RetryState {
    var attempts := (if s.Some? then s.value.attempts else 0) + 1;
    RetryState(attempts, now + Backoff(base, max, wrapped, attempts), if s.Some? then s.value.correlationId else id)
  }

  class Store<Key(==)> {
    var state: map<Key, RetryState>
    const base: nat
    const max: nat
    const wrapped: int

    constructor (base: nat, max: nat, wrapped: int)
      ensures this.base == base && this.max == max && this.wrapped == wrapped && state == map[]
    {
      this.base, this.max, this.wrapped, state := base, max, wrapped, map[];
    }

    function Peek(key: Key): Option<RetryState>
      reads this
    {
      if key in state then Some(state[key]) else None
    }

    method Get(key: Key) returns (s: Option<RetryState>)
      ensures s == Peek(key)
    {
      s := if key in state then Some(state[key]) else None;
    }

    method CalculateBackoff(attempt: nat) returns (delay: int)
      ensures delay == Backoff(base, max, wrapped, attempt)
    {
      var backoff := base;
      for k := 0 to attempt
        invariant backoff == base * Pow2(k)
      {
        backoff := 2 * backoff;
      }
      if backoff > TWO_63 {
        return max;
      }
      var calculated: int := if backoff == TWO_63 then wrapped else backoff;
      if calculated > max {
        return max;
      }
      delay := calculated;
    }

    method RegisterFailure(key: Key, now: int, correlationId: string) returns (s: RetryState)
      modifies this
      ensures s.attempts == (if key in old(state) then old(state)[key].attempts else 0) + 1
      ensures s.nextRetry == now + Backoff(base, max, wrapped, s.attempts)
      ensures s.correlationId == if key in old(state) then old(state)[key].correlationId else correlationId
      ensures s == Registered(old(Peek(key)), base, max, wrapped, now, correlationId)
      ensures state == old(state)[key := s]
    {
      var attempts, id := 0, correlationId;
      if key in state {
        attempts, id := state[key].attempts, state[key].correlationId;
      }
      var backoff := CalculateBackoff(attempts + 1);
      s := RetryState(attempts + 1, now + backoff, id);
      state := state[key := s];
    }

    method Reset(key: Key)
      modifies this
      ensures state == old(state) - {key}
    {
      state := state - {key};
    }
  }

  // ----- failures in a row

  /** The state after failures registered at `times`, starting with none. */
  function AfterFailures(base: nat, max: nat, wrapped: int, times: seq<int>): Option<RetryState> {
    if times == [] then None
    else Some(Registered(AfterFailures(base, max, wrapped, times[..|times| - 1]), base, max, wrapped, times[|times| - 1], ""))
  }

  /** Each of the failures came from a reconcile that the gate let through. */
  predicate Gated(base: nat, max: nat, wrapped: int, times: seq<int>) {
    times == [] ||
    (Gated(base, max, wrapped, times[..|times| - 1])
     && Open(AfterFailures(base, max, wrapped, times[..|times| - 1]), times[|times| - 1]))
  }

  /** No attempt up to `n` lands on the overflow. */
  predicate Exact(base: nat, max: nat, wrapped: int, n: nat) {
    forall k :: 1 <= k <= n ==> Backoff(base, max, wrapped, k) == Capped(base, max, k)
  }

  /** Failures in a row without a reset take at least the sum of their delays. */
  lemma {:induction false} FailuresTakeTime(base: nat, max: nat, wrapped: int, times: seq<int>)
    requires times != [] && Gated(base, max, wrapped, times) && Exact(base, max, wrapped, |times|)
    ensures var s := AfterFailures(base, max, wrapped, times);
      s.Some? && s.value.attempts == |times| && s.value.nextRetry >= times[0] + TotalDelay(base, max, |times|)
  {
    var n := |times|;
    var before := times[..n - 1];
    if n == 1 {
      assert before == [];
      assert TotalDelay(base, max, 1) == TotalDelay(base, max, 0) + Capped(base, max, 1);
    } else {
      FailuresTakeTime(base, max, wrapped, before);
    }
  }

  /** A reconcile that reaches SM after `n` failures in a row comes that much after the first of them. */
  lemma NextAttemptWaits(base: nat, max: nat, wrapped: int, times: seq<int>, now: int)
    requires times != [] && Gated(base, max, wrapped, times) && Exact(base, max, wrapped, |times|)
    requires Open(AfterFailures(base, max, wrapped, times), now)
    ensures now - times[0] >= TotalDelay(base, max, |times|)
  {
    FailuresTakeTime(base, max, wrapped, times);
  }
}
