/**
 * The terminal rewards of an episode.  The floating-point power `x ** 0.75` is not
 * given a definition: every function takes it as a parameter `pow075`, and the
 * lemmas that need something of it say so through the predicates below.
 */
module Rewards {
  import opened Wrappers

  /** What any stand-in for `x ** 0.75` on distances satisfies: zero at zero, never negative. */
  ghost predicate IsPowerLaw(pow075: real -> real)
  {
    pow075(0.0) == 0.0 && forall x :: 0.0 <= x ==> 0.0 <= pow075(x)
  }

  /** `x ** 0.75` grows with a non-negative `x`. */
  ghost predicate IsMonotone(pow075: real -> real)
  {
    forall x, y :: 0.0 <= x <= y ==> pow075(x) <= pow075(y)
  }

  /** Python's `max(a, b)`: `b` only when it is strictly larger. */
  function Max(a: real, b: real): (m: real)
    ensures m >= a && m >= b && (m == a || m == b)
  {
    if b > a then b else a
  }

  /** `_no_hit_reward`: the closer the ball came to the racket, the better. */
  function NoHitReward(minDistanceBallRacket: real): (r: real)
    ensures r <= 0.0 <==> minDistanceBallRacket >= 0.0
  {
    -minDistanceBallRacket
  }

  /** The term `1 - c * d ** 0.75` shared by both task rewards before clamping. */
  function TaskTerm(minDistanceBallTarget: real, c: real, pow075: real -> real): real
  {
    1.0 - c * pow075(minDistanceBallTarget)
  }

  /** `_return_task_reward`: the task term clamped from below by `rttCap`. */
  function ReturnTaskReward(minDistanceBallTarget: real, c: real, rttCap: real,
                            pow075: real -> real): (r: real)
    ensures r >= rttCap && r >= TaskTerm(minDistanceBallTarget, c, pow075)
    ensures r == rttCap || r == TaskTerm(minDistanceBallTarget, c, pow075)
    ensures pow075(0.0) == 0.0 && minDistanceBallTarget == 0.0 ==>
              r == if rttCap > 1.0 then rttCap else 1.0
  {
    Max(TaskTerm(minDistanceBallTarget, c, pow075), rttCap)
  }

  /** `_smash_task_reward`: the task term scaled by the fastest post-hit ball speed, then clamped. */
  function SmashTaskReward(minDistanceBallTarget: real, maxBallVelocity: real, c: real,
                           rttCap: real, pow075: real -> real): (r: real)
    ensures r >= rttCap && r >= TaskTerm(minDistanceBallTarget, c, pow075) * maxBallVelocity
    ensures r == rttCap || r == TaskTerm(minDistanceBallTarget, c, pow075) * maxBallVelocity
    ensures pow075(0.0) == 0.0 && minDistanceBallTarget == 0.0 ==>
              r == if rttCap > maxBallVelocity then rttCap else maxBallVelocity
  {
    Max(TaskTerm(minDistanceBallTarget, c, pow075) * maxBallVelocity, rttCap)
  }

  /**
   * `_reward`: a recorded racket distance means the ball never reached the racket,
   * and that decides the reward whatever the task; otherwise the task flag chooses.
   */
  function Reward(smash: bool, minDistanceBallRacket: Option<real>, minDistanceBallTarget: real,
                  maxBallVelocity: real, c: real, rttCap: real, pow075: real -> real): (r: real)
    ensures minDistanceBallRacket.Some? ==> r == -minDistanceBallRacket.value
    ensures minDistanceBallRacket.None? && smash ==>
              r == SmashTaskReward(minDistanceBallTarget, maxBallVelocity, c, rttCap, pow075)
    ensures minDistanceBallRacket.None? && !smash ==>
              r == ReturnTaskReward(minDistanceBallTarget, c, rttCap, pow075)
    ensures minDistanceBallRacket.None? ==> r >= rttCap
  {
    if minDistanceBallRacket.Some? then
      NoHitReward(minDistanceBallRacket.value)
    else if smash then
      SmashTaskReward(minDistanceBallTarget, maxBallVelocity, c, rttCap, pow075)
    else
      ReturnTaskReward(minDistanceBallTarget, c, rttCap, pow075)
  }

  /** When neither clamp binds, the smash reward is the return reward times the ball speed;
      at unit speed the two tasks reward alike. */
  lemma SmashScalesReturn(d: real, v: real, c: real, rttCap: real, pow075: real -> real)
    ensures ReturnTaskReward(d, c, rttCap, pow075) > rttCap && SmashTaskReward(d, v, c, rttCap, pow075) > rttCap ==>
              SmashTaskReward(d, v, c, rttCap, pow075) == ReturnTaskReward(d, c, rttCap, pow075) * v
    ensures v == 1.0 ==> SmashTaskReward(d, v, c, rttCap, pow075) == ReturnTaskReward(d, c, rttCap, pow075)
  {
  }

  /** No return reward exceeds the one for hitting the target exactly. */
  lemma ReturnRewardBest(d: real, c: real, rttCap: real, pow075: real -> real)
    requires IsPowerLaw(pow075) && 0.0 <= d && 0.0 <= c
    ensures ReturnTaskReward(d, c, rttCap, pow075) <= ReturnTaskReward(0.0, c, rttCap, pow075)
  {
  }

  /** The return reward does not increase as the ball ends farther from the target. */
  lemma ReturnRewardNonIncreasing(d1: real, d2: real, c: real, rttCap: real, pow075: real -> real)
    requires IsMonotone(pow075) && 0.0 <= d1 <= d2 && 0.0 <= c
    ensures ReturnTaskReward(d2, c, rttCap, pow075) <= ReturnTaskReward(d1, c, rttCap, pow075)
  {
  }

  /** While the task term is not negative, a faster ball never lowers the smash reward. */
  lemma SmashRewardNonDecreasing(d: real, v1: real, v2: real, c: real, rttCap: real,
                                 pow075: real -> real)
    requires 0.0 <= TaskTerm(d, c, pow075) && v1 <= v2
    ensures SmashTaskReward(d, v1, c, rttCap, pow075) <= SmashTaskReward(d, v2, c, rttCap, pow075)
  {
    NonNegativeProduct(TaskTerm(d, c, pow075), v2 - v1);
  }

  lemma NonNegativeProduct(a: real, b: real)
    requires 0.0 <= a && 0.0 <= b
    ensures 0.0 <= a * b
  {
  }
}
