/** The scoring step of `evaluate_program`: speedup over the reference, the
    error the search minimises, and whether the 32% target was reached. */
module Fitness {

  /** The speedup goal: 32% faster than the reference. */
  const TargetSpeedup: real := 1.32

  function Max(a: real, b: real): real
  {
    if a >= b then a else b
  }

  /** Reference time over average time, or 0.0 when the average is not
      positive. */
  function Speedup(reference: real, average: real): (s: real)
    ensures average > 0.0 ==> s * average == reference
    ensures average <= 0.0 ==> s == 0.0
  {
    if average > 0.0 then reference / average else 0.0
  }

  /** The error before the final clamp: at or above the target,
      `max(0.1, (target - s) * 5)`; below it, `(target - s) * 50`. */
  function RawError(s: real): real
  {
    if s >= TargetSpeedup then Max(0.1, (TargetSpeedup - s) * 5.0)
    else (TargetSpeedup - s) * 50.0
  }

  /** The reported error: the raw error, never below 0.01. */
  function Error(s: real): (e: real)
    ensures e >= 0.01
  {
    Max(0.01, RawError(s))
  }

  predicate Achieved(s: real)
  {
    s >= TargetSpeedup
  }

  /** Reaching the target always scores exactly 0.1: the `(target - s) * 5`
      branch can never exceed the floor once s is at or above the target. */
  lemma ErrorAtTarget(s: real)
    ensures Achieved(s) ==> Error(s) == 0.1
    ensures !Achieved(s) ==> Error(s) == Max(0.01, (TargetSpeedup - s) * 50.0)
  {
  }

  /** Below the target the error strictly falls as the speedup rises, until
      the 0.01 floor is reached. */
  lemma ErrorDecreasingBelowTarget(s1: real, s2: real)
    requires s1 < s2 < TargetSpeedup
    ensures Error(s1) >= Error(s2)
    ensures Error(s1) > 0.01 ==> Error(s1) > Error(s2)
  {
  }

  /** The error is not monotone across the target: a speedup just below it
      (1.319) scores 0.05, better than the 0.1 every speedup at or above it
      scores. */
  lemma ErrorDropsJustBelowTarget()
    ensures Error(1.319) == 0.05
    ensures forall s :: s >= TargetSpeedup ==> Error(1.319) < Error(s)
  {
    assert RawError(1.319) == 0.05;
    forall s | s >= TargetSpeedup
      ensures Error(1.319) < Error(s)
    {
      ErrorAtTarget(s);
    }
  }

  /** With non-negative times the speedup is non-negative, so the error never
      exceeds 66 = 1.32 * 50. */
  lemma ErrorBounded(reference: real, average: real)
    requires reference >= 0.0
    ensures Speedup(reference, average) >= 0.0
    ensures Error(Speedup(reference, average)) <= 66.0
  {
    if average > 0.0 {
      assert reference / average >= 0.0;
    }
  }

  /** Two worked cases: equal times fall short of the target with error 16;
      a reference of 1.32 over an average of 1.0 reaches it with error 0.1; a
      candidate twice as slow as the reference scores 41. */
  lemma ScoringExamples()
    ensures Speedup(1.0, 1.0) == 1.0 && Error(1.0) == 16.0 && !Achieved(1.0)
    ensures Speedup(1.32, 1.0) == 1.32 && Error(1.32) == 0.1 && Achieved(1.32)
    ensures Speedup(1.0, 2.0) == 0.5 && Error(0.5) == 41.0 && !Achieved(0.5)
  {
  }
}
