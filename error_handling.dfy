// src/workflow/error_handling.py: the CLOSED / OPEN / HALF_OPEN circuit breaker.
// Time is an integer tick passed by the caller; `last_failure_time` is None
// until the first recorded failure, and Python's truthiness makes a failure
// stamped at tick 0 count as "no failure" when the breaker checks for recovery.
module ErrorHandling {
  import opened Wrappers

  datatype BreakerState = Closed | Open | HalfOpen

  /** `if self.last_failure_time and ...`: None and 0 are both falsy. */
  predicate Stamped(t: Option<int>)
  {
    t.Some? && t.value != 0
  }

  class CircuitBreaker {
    const failureThreshold: int
    const recoveryTimeout: real
    const halfOpenMaxCalls: int
    var state: BreakerState
    var failureCount: int
    var lastFailureTime: Option<int>
    var halfOpenCalls: int

    /** OPEN only after some failure was recorded; the half-open counter is never incremented. */
    ghost predicate Valid()
      reads this
    {
      failureCount >= 0
      && (state == Open ==> lastFailureTime.Some?)
      && halfOpenCalls == 0
    }

    constructor (failureThreshold: int, recoveryTimeout: real, halfOpenMaxCalls: int)
      ensures this.failureThreshold == failureThreshold && this.recoveryTimeout == recoveryTimeout
      ensures this.halfOpenMaxCalls == halfOpenMaxCalls
      ensures state == Closed && failureCount == 0 && lastFailureTime.None? && halfOpenCalls == 0
      ensures Valid()
    {
      this.failureThreshold := failureThreshold;
      this.recoveryTimeout := recoveryTimeout;
      this.halfOpenMaxCalls := halfOpenMaxCalls;
      state := Closed;
      failureCount := 0;
      lastFailureTime := None;
      halfOpenCalls := 0;
    }

    /** True iff an OPEN breaker at tick `now` has waited out the recovery timeout. */
    predicate Recovered(now: int)
      reads this
    {
      Stamped(lastFailureTime) && ((now - lastFailureTime.value) as real) >= recoveryTimeout
    }

    /**
     * `allow_request`: CLOSED allows; OPEN allows (and moves to HALF_OPEN with a
     * reset counter) only once the recovery timeout has passed; HALF_OPEN allows
     * while the counter is below the maximum.
     */
    method AllowRequest(now: int) returns (ok: bool)
      modifies this
      ensures old(state) == Closed ==> ok && state == Closed && halfOpenCalls == old(halfOpenCalls)
      ensures old(state) == Open && old(Recovered(now)) ==> ok && state == HalfOpen && halfOpenCalls == 0
      ensures old(state) == Open && !old(Recovered(now)) ==> !ok && state == Open && halfOpenCalls == old(halfOpenCalls)
      ensures old(state) == HalfOpen ==>
        ok == (old(halfOpenCalls) < halfOpenMaxCalls) && state == HalfOpen && halfOpenCalls == old(halfOpenCalls)
      ensures failureCount == old(failureCount) && lastFailureTime == old(lastFailureTime)
      ensures old(Valid()) ==> Valid()
      ensures old(Valid()) && old(state) == HalfOpen ==> ok == (0 < halfOpenMaxCalls)
    {
      if state == Closed {
        ok := true;
      } else if state == Open {
        if Recovered(now) {
          state := HalfOpen;
          halfOpenCalls := 0;
          ok := true;
        } else {
          ok := false;
        }
      } else {
        ok := halfOpenCalls < halfOpenMaxCalls;
      }
    }

    /** `record_success`: the count resets; HALF_OPEN closes; the breaker never opens. */
    method RecordSuccess()
      modifies this
      ensures failureCount == 0
      ensures state == (if old(state) == HalfOpen then Closed else old(state))
      ensures lastFailureTime == old(lastFailureTime) && halfOpenCalls == old(halfOpenCalls)
      ensures old(Valid()) ==> Valid()
    {
      failureCount := 0;
      if state == HalfOpen {
        state := Closed;
      }
    }

    /**
     * `record_failure`: the count rises by one and the failure is stamped;
     * HALF_OPEN reopens, CLOSED opens once the count reaches the threshold.
     */
    method RecordFailure(now: int)
      modifies this
      ensures failureCount == old(failureCount) + 1 && lastFailureTime == Some(now)
      ensures old(state) == HalfOpen ==> state == Open
      ensures old(state) != HalfOpen ==>
        state == (if failureCount >= failureThreshold then Open else old(state))
      ensures halfOpenCalls == old(halfOpenCalls)
      ensures old(Valid()) ==> Valid()
    {
      failureCount := failureCount + 1;
      lastFailureTime := Some(now);
      if state == HalfOpen {
        state := Open;
      } else if failureCount >= failureThreshold {
        state := Open;
      }
    }
  }

  /**
   * The breaker lifecycle with threshold 3 and a recovery timeout of 100
   * ticks: three failures open it and the next request is refused; once 100
   * ticks have passed a request is allowed and the breaker is half open; a
   * success then closes it, while a failure instead would reopen it.
   */
  method LifecycleExample() returns (states: seq<BreakerState>, allowed: seq<bool>, count: int)
    ensures states == [Open, Open, HalfOpen, Closed, Open]
    ensures allowed == [false, true]
    ensures count == 0
  {
    var b := new CircuitBreaker(3, 100.0, 3);
    b.RecordFailure(1);
    b.RecordFailure(2);
    b.RecordFailure(3);
    var tripped := b.state;
    var early := b.AllowRequest(50);
    var stillOpen := b.state;
    var late := b.AllowRequest(103);
    var half := b.state;
    b.RecordSuccess();
    var closed := b.state;
    count := b.failureCount;
    var c := new CircuitBreaker(3, 100.0, 3);
    c.RecordFailure(1);
    c.RecordFailure(2);
    c.RecordFailure(3);
    var _ := c.AllowRequest(200);
    c.RecordFailure(201);
    states := [tripped, stillOpen, half, closed, c.state];
    allowed := [early, late];
  }
}
