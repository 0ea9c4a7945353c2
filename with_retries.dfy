/** The attempt loop of the `with_retries` decorator. What each call of the
    wrapped function does is given as a sequence of attempts; the alarm and
    the sleeps are not performed but recorded. */
module WithRetries {
  import opened Wrappers

  /** How one call of the wrapped function ends when left alone. */
  datatype Ending<V> = Returns(value: V) | Raises(message: string)

  /** One call: how long it runs, in whole seconds, and how it ends. */
  datatype Attempt<V> = Attempt(seconds: nat, ending: Ending<V>)

  /** What the wrapper returns: the wrapped function's value, or an
      `{"error": ...}` dict. */
  datatype Outcome<V> = Value(value: V) | ErrorDict(error: string)

  const MaxRetriesReached: string := "Max retries reached"

  /** `signal.alarm(t)` interrupts a call still running after `t` seconds;
      `signal.alarm(0)` sets no alarm. */
  predicate TimesOut<V>(a: Attempt<V>, timeoutSeconds: Option<nat>) {
    timeoutSeconds.Some? && timeoutSeconds.value > 0 && a.seconds >= timeoutSeconds.value
  }

  predicate Succeeds<V>(a: Attempt<V>, timeoutSeconds: Option<nat>) {
    !TimesOut(a, timeoutSeconds) && a.ending.Returns?
  }

  /** Decimal digits of a number, as `str(n)` prints it. */
  function DecimalText(n: nat): (r: string)
    ensures |r| >= 1
    ensures forall i :: 0 <= i < |r| ==> '0' <= r[i] <= '9'
  {
    var digit := ['0' + (n % 10) as char];
    if n < 10 then digit else DecimalText(n / 10) + digit
  }

  /** The error text a failed final attempt produces. */
  function FailureText<V>(a: Attempt<V>, timeoutSeconds: Option<nat>): string
    requires !Succeeds(a, timeoutSeconds)
  {
    if TimesOut(a, timeoutSeconds) then "Timeout after " + DecimalText(timeoutSeconds.value) + " seconds"
    else a.ending.message
  }

  /** `wrapper(*args, **kwargs)`: call until one attempt returns, sleeping
      0.1·(k+1) s after failed attempt `k` unless it was the last. `calls` is
      the number of calls made and `sleeps` the delays, in tenths of a second. */
  method WithRetries<V>(maxRetries: int, timeoutSeconds: Option<nat>, attempts: seq<Attempt<V>>)
    returns (r: Outcome<V>, calls: nat, sleeps: seq<nat>)
    requires maxRetries <= |attempts|
    ensures maxRetries <= 0 ==> calls == 0 && r == ErrorDict(MaxRetriesReached)
    ensures maxRetries > 0 ==> 1 <= calls <= maxRetries
    ensures forall k :: 0 <= k < calls - 1 ==> !Succeeds(attempts[k], timeoutSeconds)
    ensures r.Value? ==> Succeeds(attempts[calls - 1], timeoutSeconds)
                         && r.value == attempts[calls - 1].ending.value
    ensures maxRetries > 0 && r.ErrorDict? ==>
              calls == maxRetries && !Succeeds(attempts[calls - 1], timeoutSeconds)
              && r.error == FailureText(attempts[calls - 1], timeoutSeconds)
    ensures |sleeps| == (if calls == 0 then 0 else calls - 1)
    ensures forall k :: 0 <= k < |sleeps| ==> sleeps[k] == k + 1
  {
    sleeps := [];
    calls := 0;
    var attempt := 0;
    while attempt < maxRetries
      invariant if maxRetries > 0 then attempt < maxRetries else attempt == 0
      invariant calls == attempt
      invariant forall k :: 0 <= k < attempt ==> !Succeeds(attempts[k], timeoutSeconds)
      invariant |sleeps| == attempt
      invariant forall k :: 0 <= k < |sleeps| ==> sleeps[k] == k + 1
      decreases maxRetries - attempt
    {
      var a := attempts[attempt];
      calls := calls + 1;
      if TimesOut(a, timeoutSeconds) {
        if attempt == maxRetries - 1 {
          r := ErrorDict("Timeout after " + DecimalText(timeoutSeconds.value) + " seconds");
          return;
        }
      } else {
        match a.ending
        case Returns(v) =>
          r := Value(v);
          return;
        case Raises(message) =>
          if attempt == maxRetries - 1 {
            r := ErrorDict(message);
            return;
          }
      }
      sleeps := sleeps + [attempt + 1];
      attempt := attempt + 1;
    }
    r := ErrorDict(MaxRetriesReached);
  }

  // ---------------------------------------------------------------------
  // Properties
  // ---------------------------------------------------------------------

  /** The first attempt that succeeds within the budget decides the result. */
  function FirstSuccess<V>(attempts: seq<Attempt<V>>, timeoutSeconds: Option<nat>, limit: nat): (r: Option<nat>)
    requires limit <= |attempts|
    ensures r.Some? ==> r.value < limit && Succeeds(attempts[r.value], timeoutSeconds)
                        && forall k :: 0 <= k < r.value ==> !Succeeds(attempts[k], timeoutSeconds)
    ensures r.None? ==> forall k :: 0 <= k < limit ==> !Succeeds(attempts[k], timeoutSeconds)
  {
    if limit == 0 then None
    else
      var earlier := FirstSuccess(attempts, timeoutSeconds, limit - 1);
      if earlier.Some? then earlier
      else if Succeeds(attempts[limit - 1], timeoutSeconds) then Some(limit - 1)
      else None
  }

  /** Total time slept, in tenths of a second. */
  function TotalSleep(sleeps: seq<nat>): nat {
    if sleeps == [] then 0 else TotalSleep(sleeps[..|sleeps| - 1]) + sleeps[|sleeps| - 1]
  }

  /** The delays 1, 2, …, n tenths add up to n·(n+1)/2 tenths: linear steps,
      not an exponential back-off. */
  lemma {:induction false} LinearBackoff(sleeps: seq<nat>)
    requires forall k :: 0 <= k < |sleeps| ==> sleeps[k] == k + 1
    ensures 2 * TotalSleep(sleeps) == |sleeps| * (|sleeps| + 1)
  {
    if sleeps != [] {
      LinearBackoff(sleeps[..|sleeps| - 1]);
    }
  }

  /** Three facts about a run of the loop, in terms of its attempts: when
      some attempt within the budget succeeds, the first such attempt gives
      the value; otherwise the last attempt's failure is reported. */
  lemma OutcomeByFirstSuccess<V>(maxRetries: int, timeoutSeconds: Option<nat>, attempts: seq<Attempt<V>>,
                                  r: Outcome<V>, calls: nat)
    requires 0 < maxRetries <= |attempts|
    requires 1 <= calls <= maxRetries
    requires forall k :: 0 <= k < calls - 1 ==> !Succeeds(attempts[k], timeoutSeconds)
    requires r.Value? ==> Succeeds(attempts[calls - 1], timeoutSeconds)
                          && r.value == attempts[calls - 1].ending.value
    requires r.ErrorDict? ==> calls == maxRetries && !Succeeds(attempts[calls - 1], timeoutSeconds)
    ensures var first := FirstSuccess(attempts, timeoutSeconds, maxRetries);
      && (first.Some? ==> r == Value(attempts[first.value].ending.value) && calls == first.value + 1)
      && (first.None? ==> r.ErrorDict? && calls == maxRetries)
  {
    var first := FirstSuccess(attempts, timeoutSeconds, maxRetries);
    if r.ErrorDict? {
      assert forall k :: 0 <= k < maxRetries ==> !Succeeds(attempts[k], timeoutSeconds);
    }
  }

  /** A timeout on the final attempt reports the configured number of
      seconds. */
  lemma TimeoutText(a: Attempt<int>)
    requires a.seconds >= 30
    ensures FailureText(a, Some(30)) == "Timeout after 30 seconds"
  {
    assert DecimalText(30) == "30" by {
      assert DecimalText(3) == "3";
    }
  }

  /** With no alarm (no timeout, or a timeout of 0), a call is never cut
      short however long it runs. */
  lemma NoAlarmNoTimeout<V>(a: Attempt<V>, timeoutSeconds: Option<nat>)
    requires timeoutSeconds == None || timeoutSeconds == Some(0)
    ensures Succeeds(a, timeoutSeconds) <==> a.ending.Returns?
  {
  }
}
