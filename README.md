# HysrOneBall in Dafny

This project models the core of `learning_table_tennis_from_scratch/hysr_one_ball.py`: the
reinforcement-learning environment that couples a pneumatic-muscle robot (the "pseudo-real"
robot) to a simulated table-tennis ball. It has three parts.

- **Pressure conversions** (`pressures.dfy`, module `Pressures`). `_convert_pressures_in`
  turns the flat action `[ago1, antago1, ago2, antago2, ...]` into `(agonist, antagonist)`
  pairs. `_convert_pressures_out` interleaves the two lists read back from the robot. Both
  are built, as in Python, from the slices `s[::2]` and `s[1::2]`, a truncating `zip` and a
  flattening comprehension. Their contracts give the exact lengths and index layout, so an
  odd final item is dropped and mismatched lists are cut to the shorter one. Round-trip
  lemmas relate the two directions.
- **Rewards** (`rewards.dfy`, module `Rewards`). These are the four reward functions. The
  floating-point `x ** 0.75` is a parameter `pow075: real -> real`. A lemma that needs
  something of it says so with `IsPowerLaw` (zero at zero, never negative) or `IsMonotone`.
  The dispatch and clamp properties hold for any `pow075`.
- **The episode controller** (`hysr_one_ball.dfy`, module `Hysr`, class `HysrOneBall`).
  The external channels are kept abstract:
  - What the controller reads from them arrives as method parameters: pressure-channel
    reads, the ball reading, the contact report and the fetched trajectory.
  - Every command and read is appended, in order, to the field `log` as an `Event`.
  - The `context.BallStatus` tracker is the field `tracker`. Its creation, reset and update
    are supplied functions (`TrackerBehaviour`), because their code is not part of this
    model.
  - `Reset` and `Step` state the whole new state: the tracker, the exact event sequence and
    the returned observation, reward and termination flag.

The model follows the code, including where the code differs from what its names and comments suggest:

- The conversions do not fail on an odd-length list or on lists of different lengths. They
  truncate.
- `reset` does not store the first trajectory point in the tracker. The observation it
  returns carries whatever ball position and velocity the tracker has after its own reset.
- In `step`, the tracker is updated with the ball reading taken at line 267, before the
  robot and simulation bursts.
- The reward of a non-terminal step is `None`, written `Option.None` here.
- The code has no "first step" marker.
- With a reference posture in accelerated time, `reset` evaluates the undefined name
  `o80_time_step` (line 203). That raises a `NameError` after the posture command has been
  sent. The model returns `Failure(UndefinedTimeStep)` with exactly those events logged.

## Model

| member | source | states |
|---|---|---|
| Pressures.EvenItems | learning_table_tennis_from_scratch/hysr_one_ball.py:71 | `s[::2]` has `(len(s)+1)/2` items and item `i` is `s[2i]` |
| Pressures.OddItems | learning_table_tennis_from_scratch/hysr_one_ball.py:71 | `s[1::2]` has `len(s)/2` items and item `i` is `s[2i+1]` |
| Pressures.Zip | learning_table_tennis_from_scratch/hysr_one_ball.py:71 | `zip` has the length of the shorter list and pairs the items index by index |
| Pressures.Flatten | learning_table_tennis_from_scratch/hysr_one_ball.py:76 | flattening `n` pairs gives `2n` items, the pair `i` at positions `2i` and `2i+1` |
| Pressures.ConvertPressuresIn | learning_table_tennis_from_scratch/hysr_one_ball.py:68-71 | the result has `len(p)/2` pairs (odd last item dropped) and pair `i` is `(p[2i], p[2i+1])` |
| Pressures.ConvertPressuresOut | learning_table_tennis_from_scratch/hysr_one_ball.py:74-76 | the result has `2*min(len(a), len(b))` items with `a[i]` at `2i` and `b[i]` at `2i+1` |
| Pressures.OutOfIn | learning_table_tennis_from_scratch/hysr_one_ball.py:68-76 | splitting the converted pairs into agonists and antagonists and converting back gives `p` minus its unpaired last item |
| Pressures.OutOfInEven | learning_table_tennis_from_scratch/hysr_one_ball.py:68-76 | for an even-length `p` that round trip gives back `p` exactly |
| Pressures.InOfOut | learning_table_tennis_from_scratch/hysr_one_ball.py:68-76 | converting interleaved lists back into pairs gives `zip(a, b)` |
| Rewards.NoHitReward | learning_table_tennis_from_scratch/hysr_one_ball.py:18-19 | the no-hit reward is non-positive exactly when the racket distance is non-negative |
| Rewards.ReturnTaskReward | learning_table_tennis_from_scratch/hysr_one_ball.py:22-27 | the result is at least `rttCap` and at least `1 - c*d^0.75`, and equals one of them; at distance 0 it is `max(1, rttCap)` |
| Rewards.SmashTaskReward | learning_table_tennis_from_scratch/hysr_one_ball.py:30-37 | the result is at least `rttCap` and at least `(1 - c*d^0.75)*v`, and equals one of them; at distance 0 it is `max(v, rttCap)` |
| Rewards.Reward | learning_table_tennis_from_scratch/hysr_one_ball.py:40-65 | a present racket distance `d` gives `-d` whatever the task and statistics; otherwise the smash or return reward by the task flag, never below `rttCap` |
| Rewards.SmashScalesReturn | learning_table_tennis_from_scratch/hysr_one_ball.py:22-37 | when neither clamp binds, the smash reward is the return reward times the ball velocity; at velocity 1 the two rewards are equal |
| Rewards.ReturnRewardBest | learning_table_tennis_from_scratch/hysr_one_ball.py:22-27 | with `c >= 0`, no target distance earns more than distance 0 |
| Rewards.ReturnRewardNonIncreasing | learning_table_tennis_from_scratch/hysr_one_ball.py:22-27 | with `c >= 0` and a monotone power, the return reward does not increase with the target distance |
| Rewards.SmashRewardNonDecreasing | learning_table_tennis_from_scratch/hysr_one_ball.py:30-37 | while the task term is non-negative, a faster ball never lowers the smash reward |
| Hysr.WithTerminalState | learning_table_tennis_from_scratch/hysr_one_ball.py:219-222 | the played trajectory keeps the fetched points as its prefix, is one longer, and its last point is below the episode threshold |
| Hysr.TerminationReachable | learning_table_tennis_from_scratch/hysr_one_ball.py:236-244 | every trajectory that `reset` plays holds a point on which `_episode_over` fires |
| Hysr.Observe | learning_table_tennis_from_scratch/hysr_one_ball.py:79-91 | observation joints come from the robot read; its pressures have `2*min(len(ago), len(antago))` items with `ago[i]` at `2i` and `antago[i]` at `2i+1`; ball fields come from the tracker |
| Hysr.HysrOneBall.constructor | learning_table_tennis_from_scratch/hysr_one_ball.py:96-158 | records the configuration (`rtt_cap` defaults to -0.2, no trajectory index by default), moves the goal to the target, creates the tracker for the target |
| Hysr.HysrOneBall.CreateObservation | learning_table_tennis_from_scratch/hysr_one_ball.py:161-169 | logs one pressure read and returns the observation of that read and the current tracker |
| Hysr.HysrOneBall.EpisodeOver | learning_table_tennis_from_scratch/hysr_one_ball.py:236-244 | over exactly when the tracked ball's z is below -0.5 |
| Hysr.HysrOneBall.Reset | learning_table_tennis_from_scratch/hysr_one_ball.py:186-233 | resets the tracker; logs the hit-point reset, contact reset, posture commands, mirroring, trajectory fetch, ball placement at the played trajectory's first point, settling bursts and playback of the fetched points plus the z = -10 state; fails exactly in the reference-posture accelerated branch |
| Hysr.HysrOneBall.Step | learning_table_tennis_from_scratch/hysr_one_ball.py:260-320 | logs the reads before the pressure command, mirrors the pre-action joints, updates the tracker with the ball reading and contact, moves the hit point only when a closest post-hit position exists; the observation pairs the pre-action read with the updated tracker; over iff z < -0.5; reward `None` iff not over, else `_reward` of the tracker statistics |
| Hysr.TerminalReadingEndsEpisode | learning_table_tennis_from_scratch/hysr_one_ball.py:306-316 | for a tracker that records the ball position it is given, a step whose ball reading is the z = -10 state appended by `reset` updates the tracker with that reading, keeps the earlier log and logs the ball read, observes the updated tracker, ends the episode and returns `Some` of `_reward` of the updated tracker |

## Left out

- The channel backends (`o80`, `o80_pam`, `pam_mujoco`, `context`). Their calls appear only as logged events and supplied values, and their behaviour and errors are not modelled.
- `time.sleep(0.1)` (line 196) and the difference between real-time and accelerated pacing. These are timing concerns. In `step` only the robot burst event differs between the two modes; in `reset` with a reference posture, real time sends `pulse_and_wait` (line 205) and accelerated time fails (line 203).
- Floating-point arithmetic. Numbers are reals. `x ** 0.75` is the parameter `pow075`. The burst counts, `int(algo_time_step / o80_time_step)` and `int(algo_time_step / mujoco_time_step)` (lines 119 and 124), are integer constructor parameters.
- `_o80_time_step` and `_period_ms` are stored but never read, so they are not fields of the model.
- `BallStatus` internals: how `update` keeps the minimum distances and maximum velocity. `min_distance_ball_target` is modelled as always a number.
- The in-place `append` on the fetched list (line 222) is sequence concatenation. Aliasing with the trajectory source's own list is not modelled.
- The public `create_observation` (lines 247-256) refers to an undefined `ball_status` and passes six arguments to the five-field `_Observation`, so it cannot run. It is not modelled.
- `get_robot_iteration`, `get_ball_iteration` and `get_current_desired_pressures` (lines 172-183) only forward channel counters and reads. `close` (lines 323-324) does nothing.
- The `list(action)` conversion of a numpy array (line 271). Actions are sequences of integers.
- hp_optim/run_singularity.py (container launcher), hysr_one_ball_random_bursting.py (a random demo script driving a class that is not part of this model) and setup.py (packaging).
