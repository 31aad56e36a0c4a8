/** The reconnect loop of the generation manager and its backoff. Times are nanoseconds. */
module Reconnect {
  const MILLISECOND := 1_000_000
  const SECOND := 1000 * MILLISECOND
  const SUSTAINED_HEALTHY := 30 * SECOND
  const MAX_DELAY := 10 * SECOND
  const STEPS := [250 * MILLISECOND, 500 * MILLISECOND, 1 * SECOND, 2 * SECOND, 5 * SECOND, 10 * SECOND]

  datatype Failure = NoFailure | Transient | Permanent

  /** How one round of the loop goes. `extra` is the random part of the jitter. */
  datatype Round = Round(
    canceledBefore: bool, healthy: int, failure: Failure, cleanupFailed: bool, canceledAfter: bool, extra: nat,
    sleepCanceled: bool)

  datatype Ending = Stopped | CleanupFailed | PermanentFailure | StillRunning

  /** `extra` is drawn from zero to a quarter of the base. */
  function Jitter(base: int, extra: nat): int {
    if base <= 0 then 0
    else if base / 4 <= 0 then base
    else
      var result := base + extra % (base / 4 + 1);
      if result > MAX_DELAY then MAX_DELAY else result
  }

  lemma JitterBounds(step: nat, extra: nat)
    requires step < |STEPS|
    ensures STEPS[step] <= Jitter(STEPS[step], extra) <= MAX_DELAY
    ensures Jitter(STEPS[step], extra) <= STEPS[step] + STEPS[step] / 4
  {
    assert STEPS[step] in {250 * MILLISECOND, 500 * MILLISECOND, 1 * SECOND, 2 * SECOND, 5 * SECOND, 10 * SECOND};
  }

  /** The loop comes back for another round. */
  predicate Retries(round: Round) {
    Sleeps(round) && !round.sleepCanceled
  }

  /** The rounds in a row, up to this one, that failed without a sustained healthy time. */
  function Streak(script: seq<Round>, k: nat): nat
    requires k < |script|
  {
    if k == 0 || script[k].healthy >= SUSTAINED_HEALTHY then 0 else Streak(script, k - 1) + 1
  }

  function BackoffStep(script: seq<Round>, k: nat): (step: nat)
    requires k < |script|
    ensures step < |STEPS|
  {
    if Streak(script, k) < |STEPS| - 1 then Streak(script, k) else |STEPS| - 1
  }

  function After(step: nat): (next: nat)
    requires step < |STEPS|
    ensures next < |STEPS|
  {
    if step < |STEPS| - 1 then step + 1 else step
  }

  /** The failure of the round, and not a cancellation or its cleanup, decides what is next. */
  predicate Fails(round: Round) {
    !round.canceledBefore && !round.cleanupFailed && !round.canceledAfter && !round.failure.NoFailure?
  }

  /** The round gets as far as waiting for its delay. */
  predicate Sleeps(round: Round) {
    Fails(round) && round.failure.Transient?
  }

  /** How many rounds from `from` on are followed by another one. */
  function Retried(script: seq<Round>, from: nat): (n: nat)
    requires from <= |script|
    ensures from + n <= |script|
    ensures forall k :: from <= k < from + n ==> Retries(script[k])
    ensures from + n < |script| ==> !Retries(script[from + n])
    decreases |script| - from
  {
    if from < |script| && Retries(script[from]) then Retried(script, from + 1) + 1 else 0
  }

  /** The loop goes through the leading rounds that retry and through the one after them. It
      sleeps in each of those that retry, and in the last if only the sleep is canceled; the
      delays are those their streaks call for. A cancellation before the round counts first,
      then a failed cleanup, then a cancellation during the round, then the failure. */
  method Run(script: seq<Round>) returns (ending: Ending, delays: seq<int>)
    ensures var n := Retried(script, 0);
            && |delays| == (if n < |script| && Sleeps(script[n]) then n + 1 else n)
            && (ending.StillRunning? <==> n == |script|)
            && (ending.CleanupFailed? <==> n < |script| && script[n].cleanupFailed && !script[n].canceledBefore)
            && (ending.PermanentFailure? <==> n < |script| && Fails(script[n]) && script[n].failure.Permanent?)
    ensures forall k :: 0 <= k < |delays| ==> delays[k] == Jitter(STEPS[BackoffStep(script, k)], script[k].extra)
  {
    delays := [];
    var backoffIndex := 0;
    for k := 0 to |script|
      invariant |delays| == k <= Retried(script, 0) && 0 <= backoffIndex < |STEPS|
      invariant forall i :: 0 <= i < k ==> Retries(script[i])
      invariant forall i :: 0 <= i < k ==> delays[i] == Jitter(STEPS[BackoffStep(script, i)], script[i].extra)
      invariant backoffIndex == if k == 0 then 0 else After(BackoffStep(script, k - 1))
    {
      var round := script[k];
      if round.canceledBefore { return Stopped, delays; }
      if round.cleanupFailed { return CleanupFailed, delays; }
      if round.canceledAfter { return Stopped, delays; }
      if round.failure.NoFailure? { return Stopped, delays; }
      if round.failure.Permanent? { return PermanentFailure, delays; }

      if round.healthy >= SUSTAINED_HEALTHY {
        backoffIndex := 0;
      }
      var base := STEPS[backoffIndex];
      assert backoffIndex == BackoffStep(script, k);
      if backoffIndex < |STEPS| - 1 {
        backoffIndex := backoffIndex + 1;
      }
      delays := delays + [Jitter(base, round.extra)];
      if round.sleepCanceled { return Stopped, delays; }
    }
    ending := StillRunning;
  }

  /** Only a failure that may pass is waited out: nothing was canceled by then and the generation
      was cleaned up. Another round follows exactly if the wait is not canceled either. */
  lemma RetriesExactly(round: Round)
    ensures var undisturbed := !round.canceledBefore && !round.cleanupFailed && !round.canceledAfter;
            && (Sleeps(round) <==> undisturbed && round.failure == Transient)
            && (Retries(round) <==> undisturbed && round.failure == Transient && !round.sleepCanceled)
            && (Fails(round) <==> undisturbed && round.failure != NoFailure)
  {
  }

  /** The delays before jitter, from a quarter of a second to ten seconds. */
  lemma StepsExactly()
    ensures |STEPS| == 6
    ensures STEPS[0] == 250_000_000 && STEPS[1] == 500_000_000 && STEPS[2] == 1_000_000_000
    ensures STEPS[3] == 2_000_000_000 && STEPS[4] == 5_000_000_000 && STEPS[5] == 10_000_000_000
  {
  }

  /** A round waits the longer the more rounds in a row were healthy for less than thirty seconds:
      the `m` rounds before it since the last that was, or since the first. */
  lemma {:induction false} BackoffExactly(script: seq<Round>, k: nat, m: nat)
    requires m <= k < |script|
    requires forall i :: k - m < i <= k ==> script[i].healthy < 30 * 1_000_000_000
    requires k == m || script[k - m].healthy >= 30 * 1_000_000_000
    ensures BackoffStep(script, k) == if m < 5 then m else 5
  {
    StreakExactly(script, k, m);
  }

  lemma {:induction false} StreakExactly(script: seq<Round>, k: nat, m: nat)
    requires m <= k < |script|
    requires forall i :: k - m < i <= k ==> script[i].healthy < 30 * 1_000_000_000
    requires k == m || script[k - m].healthy >= 30 * 1_000_000_000
    ensures Streak(script, k) == m
  {
    if m > 0 { StreakExactly(script, k - 1, m - 1); }
  }

  lemma SmallModulo(x: nat, m: nat)
    requires x < m
    ensures x % m == x
  {
  }

  /** Jitter adds the random part and stops at ten seconds. */
  lemma JitterExactly(base: int, extra: nat)
    requires base >= 4 && extra <= base / 4
    ensures Jitter(base, extra) == if base + extra <= 10_000_000_000 then base + extra else 10_000_000_000
  {
    var bound := base / 4 + 1;
    SmallModulo(extra, bound);
    assert extra % (base / 4 + 1) == extra;
  }
}
