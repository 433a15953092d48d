/**
 * `on_disconnect`: reconnect with exponential backoff. `time.sleep` becomes
 * the list of delays slept, and each `client.reconnect()` is an outcome
 * supplied by the caller (true: it succeeded).
 */
module Backoff {
  const FirstReconnectDelay := 1
  const ReconnectRate := 2
  const MaxReconnectCount := 12
  const MaxReconnectDelay := 60

  function Min(a: int, b: int): int { if a <= b then a else b }

  /** The delay slept before attempt `i` (counting from 0), as the loop updates it. */
  function DelayAt(i: nat): nat {
    if i == 0 then FirstReconnectDelay
    else Min(DelayAt(i - 1) * ReconnectRate, MaxReconnectDelay)
  }

  function Pow2(i: nat): nat {
    if i == 0 then 1 else 2 * Pow2(i - 1)
  }

  /** The delays are the powers of two, capped at 60. */
  lemma {:induction false} DelayIsCappedPower(i: nat)
    ensures DelayAt(i) == Min(Pow2(i), MaxReconnectDelay)
  {
    if i > 0 {
      DelayIsCappedPower(i - 1);
    }
  }

  /** The schedule is 1, 2, 4, 8, 16, 32, then 60 for every later attempt. */
  lemma {:induction false} DelaySchedule(i: nat)
    ensures 1 <= DelayAt(i) <= MaxReconnectDelay
    ensures i < 6 ==> DelayAt(i) == Pow2(i)
    ensures i >= 6 ==> DelayAt(i) == MaxReconnectDelay
    ensures DelayAt(i) <= DelayAt(i + 1)
  {
    if i > 0 {
      DelaySchedule(i - 1);
    }
  }

  function Succeeds(outcomes: seq<bool>, attempt: nat): bool {
    attempt < |outcomes| && outcomes[attempt]
  }

  /**
   * The reconnect loop: sleep, try, and on failure double the delay up to
   * the cap. It stops at the first success, and after `MaxReconnectCount`
   * failures gives up with the link down.
   */
  method Reconnect(outcomes: seq<bool>) returns (delays: seq<nat>, reconnected: bool)
    ensures |delays| <= MaxReconnectCount
    ensures forall i :: 0 <= i < |delays| ==> delays[i] == DelayAt(i)
    ensures forall i :: 0 <= i < |delays| - 1 ==> !Succeeds(outcomes, i)
    ensures reconnected <==> |delays| > 0 && Succeeds(outcomes, |delays| - 1)
    ensures !reconnected ==> |delays| == MaxReconnectCount
  {
    var count, delay := 0, FirstReconnectDelay;
    delays := [];
    while count < MaxReconnectCount
      invariant count <= MaxReconnectCount && |delays| == count
      invariant delay == DelayAt(count)
      invariant forall i :: 0 <= i < count ==> delays[i] == DelayAt(i)
      invariant forall i :: 0 <= i < count ==> !Succeeds(outcomes, i)
    {
      delays := delays + [delay];
      assert delays[count] == DelayAt(count);
      if Succeeds(outcomes, count) {
        return delays, true;
      }
      delay := delay * ReconnectRate;
      delay := Min(delay, MaxReconnectDelay);
      count := count + 1;
    }
    reconnected := false;
  }
}
