/**
 * The episode controller `HysrOneBall`.  The robot, mirroring, ball, hit-point and
 * goal channels, the contact sensor and the trajectory source are outside this model:
 * what the controller reads from them arrives as method parameters, and everything it
 * sends or reads is appended, in order, to an event log.  The ball/contact tracker
 * (`BallStatus`) is a value whose creation, reset and update are supplied functions.
 */
module Hysr {
  import opened Wrappers
  import opened Pressures
  import opened Rewards

  /** A three-component position or velocity; `z` is the source's index 2. */
  datatype Vec3 = Vec3(x: real, y: real, z: real)

  const Zero: Vec3 := Vec3(0.0, 0.0, 0.0)

  /** A ball trajectory point (`context.State`). */
  datatype BallState = BallState(position: Vec3, velocity: Vec3)

  /** What a read of the pressure channel returns. */
  datatype RobotState = RobotState(pressuresAgo: seq<int>, pressuresAntago: seq<int>,
                                   jointPositions: seq<real>, jointVelocities: seq<real>)

  /** `_Observation`. */
  datatype Observation = Observation(jointPositions: seq<real>, jointVelocities: seq<real>,
                                     pressures: seq<int>,
                                     ballPosition: Vec3, ballVelocity: Vec3)

  /** The contact sensor's report; its contents are not part of this model. */
  datatype ContactInfo = ContactInfo(report: seq<real>)

  /** The statistics of `context.BallStatus` that the controller reads. */
  datatype Tracker = Tracker(ballPosition: Vec3, ballVelocity: Vec3,
                             minDistanceBallRacket: Option<real>,
                             minDistanceBallTarget: real,
                             minPositionBallTarget: Option<Vec3>,
                             maxBallVelocity: real)

  /** How `BallStatus` is built for a target, reset, and updated with one ball reading. */
  datatype TrackerBehaviour = TrackerBehaviour(create: Vec3 -> Tracker,
                                               reset: Tracker -> Tracker,
                                               update: (Tracker, BallState, ContactInfo) -> Tracker)

  /** Every interaction with an external channel, in the order the controller performs it. */
  datatype Event =
    | GoalSet(position: Vec3, velocity: Vec3)
    | HitPointSet(position: Vec3, velocity: Vec3)
    | ContactReset
    | ContactGet(contact: ContactInfo)
    | PressuresRead(state: RobotState)
    | PressuresSet(command: seq<(int, int)>)
    | PressuresSetPosture(posture: seq<(int, int)>, durationMs: int, wait: bool)
    | PressuresBurst(iterations: int)
    | PressuresPulseAndWait
    | MirroringSet(positions: seq<real>, velocities: seq<real>, nbIterations: Option<int>)
    | MirroringBurst(iterations: int)
    | BallSet(position: Vec3, velocity: Vec3)
    | BallGet(ball: BallState)
    | BallPlay(points: seq<BallState>)
    | TrajectoryFetched(index: Option<int>, points: seq<BallState>)

  /** Why `reset` can fail: the accelerated reference-posture branch names an undefined variable. */
  datatype ResetError = UndefinedTimeStep

  const EpisodeOverHeight: real := -0.5
  const RestingHitPoint: Vec3 := Vec3(0.0, 0.0, -0.62)
  const TerminalState: BallState := BallState(Vec3(0.0, 0.0, -10.0), Zero)
  const PostureDurationMs: int := 1500
  const MirroringIterations: int := 100
  const SettlingBursts: int := 5

  /** The ball has fallen below the table: the end of an episode. */
  predicate BelowTable(p: Vec3)
  {
    p.z < EpisodeOverHeight
  }

  /**
   * The trajectory `reset` plays: the fetched points followed by a state far below the
   * table, so that the end of the episode is always detected.
   */
  function WithTerminalState(points: seq<BallState>): (t: seq<BallState>)
    ensures |t| == |points| + 1 && t[..|points|] == points
    ensures BelowTable(t[|points|].position)
    ensures t[0] == if |points| > 0 then points[0] else TerminalState
  {
    points + [TerminalState]
  }

  /** Every trajectory that `reset` plays reaches a point that ends the episode. */
  lemma TerminationReachable(points: seq<BallState>)
    ensures exists k :: 0 <= k < |WithTerminalState(points)| && BelowTable(WithTerminalState(points)[k].position)
  {
    var t := WithTerminalState(points);
    assert BelowTable(t[|points|].position);
  }

  /** The observation built from one pressure-channel read and the tracker. */
  function Observe(read: RobotState, t: Tracker): (o: Observation)
    ensures o.jointPositions == read.jointPositions && o.jointVelocities == read.jointVelocities
    ensures |o.pressures| == 2 * Min(|read.pressuresAgo|, |read.pressuresAntago|)
    ensures forall i :: 0 <= i < Min(|read.pressuresAgo|, |read.pressuresAntago|) ==>
              o.pressures[2 * i] == read.pressuresAgo[i] && o.pressures[2 * i + 1] == read.pressuresAntago[i]
    ensures o.ballPosition == t.ballPosition && o.ballVelocity == t.ballVelocity
  {
    Observation(read.jointPositions, read.jointVelocities,
                ConvertPressuresOut(read.pressuresAgo, read.pressuresAntago),
                t.ballPosition, t.ballVelocity)
  }

  /** The tracker's update takes the ball position it is given as the current one. */
  ghost predicate RecordsReading(b: TrackerBehaviour)
  {
    forall t, s, contact :: b.update(t, s, contact).ballPosition == s.position
  }

  class HysrOneBall {
    const accelerated: bool
    const nbRobotBursts: int
    const nbSimBursts: int
    const referencePosture: Option<seq<(int, int)>>
    const targetPosition: Vec3
    const c: real
    const smashTask: bool
    const rttCap: real
    const trajectoryIndex: Option<int>
    const pow075: real -> real
    const ballStatus: TrackerBehaviour

    var tracker: Tracker
    var log: seq<Event>

    /**
     * Moves the goal marker to the target and creates the tracker for it.  The burst
     * counts are the integer quotients of the algorithm time step by the robot and
     * simulation time steps.
     */
    constructor (pow075: real -> real, ballStatus: TrackerBehaviour,
                 accelerated: bool, nbRobotBursts: int, nbSimBursts: int,
                 referencePosture: Option<seq<(int, int)>>, targetPosition: Vec3,
                 c: real, smashTask: bool,
                 rttCap: real := -0.2, trajectoryIndex: Option<int> := None)
      ensures this.accelerated == accelerated && this.nbRobotBursts == nbRobotBursts
      ensures this.nbSimBursts == nbSimBursts && this.referencePosture == referencePosture
      ensures this.targetPosition == targetPosition && this.c == c && this.smashTask == smashTask
      ensures this.rttCap == rttCap && this.trajectoryIndex == trajectoryIndex
      ensures this.pow075 == pow075 && this.ballStatus == ballStatus
      ensures tracker == ballStatus.create(targetPosition)
      ensures log == [GoalSet(targetPosition, Zero)]
    {
      this.accelerated := accelerated;
      this.nbRobotBursts := nbRobotBursts;
      this.nbSimBursts := nbSimBursts;
      this.referencePosture := referencePosture;
      this.targetPosition := targetPosition;
      this.c := c;
      this.smashTask := smashTask;
      this.rttCap := rttCap;
      this.trajectoryIndex := trajectoryIndex;
      this.pow075 := pow075;
      this.ballStatus := ballStatus;
      log := [GoalSet(targetPosition, Zero)];
      tracker := ballStatus.create(targetPosition);
    }

    /** `_create_observation`: reads the pressure channel and pairs that read with the tracker. */
    method CreateObservation(read: RobotState) returns (observation: Observation)
      modifies this`log
      ensures log == old(log) + [PressuresRead(read)]
      ensures observation == Observe(read, tracker)
    {
      log := log + [PressuresRead(read)];
      observation := Observe(read, tracker);
    }

    /** `_episode_over`: the tracked ball is below the table. */
    method EpisodeOver() returns (over: bool)
      ensures over <==> BelowTable(tracker.ballPosition)
    {
      over := false;
      if tracker.ballPosition.z < EpisodeOverHeight {
        over := true;
      }
    }

    /**
     * `reset`.  `postureRead` and `observationRead` are the two reads of the pressure
     * channel (for mirroring, then for the observation); `fetched` is what the trajectory
     * source returned for the configured index, or its random draw when there is none.
     */
    method Reset(postureRead: RobotState, fetched: seq<BallState>, observationRead: RobotState)
      returns (result: Result<Observation, ResetError>)
      modifies this`tracker, this`log
      ensures tracker == ballStatus.reset(old(tracker))
      ensures result.Failure? <==> referencePosture.Some? && accelerated
      ensures result.Failure? ==>
                log == old(log) + [HitPointSet(RestingHitPoint, Zero), ContactReset]
                       + [PressuresSetPosture(referencePosture.value, PostureDurationMs, false)]
      ensures result.Success? ==>
                var points := WithTerminalState(fetched);
                log == old(log) + [HitPointSet(RestingHitPoint, Zero), ContactReset]
                       + (if referencePosture.Some?
                          then [PressuresSetPosture(referencePosture.value, PostureDurationMs, false),
                                PressuresPulseAndWait]
                          else [])
                       + [PressuresRead(postureRead),
                          MirroringSet(postureRead.jointPositions, postureRead.jointVelocities,
                                       Some(MirroringIterations)),
                          MirroringBurst(MirroringIterations + 1),
                          TrajectoryFetched(trajectoryIndex, fetched),
                          BallSet(points[0].position, points[0].velocity),
                          MirroringBurst(SettlingBursts),
                          BallPlay(points)]
                       + [PressuresRead(observationRead)]
      ensures result.Success? ==> result.value == Observe(observationRead, tracker)
    {
      var cleared := [HitPointSet(RestingHitPoint, Zero), ContactReset];
      tracker := ballStatus.reset(tracker);

      // moving the robot back to the reference posture
      var posture: seq<Event> := [];
      if referencePosture.Some? {
        posture := [PressuresSetPosture(referencePosture.value, PostureDurationMs, false)];
        if accelerated {
          log := log + cleared + posture;
          return Failure(UndefinedTimeStep);
        }
        posture := posture + [PressuresPulseAndWait];
      }

      // mirroring the robot, fetching and shooting the trajectory
      var points := fetched + [TerminalState];
      var launched := [PressuresRead(postureRead),
                       MirroringSet(postureRead.jointPositions, postureRead.jointVelocities,
                                    Some(MirroringIterations)),
                       MirroringBurst(MirroringIterations + 1),
                       TrajectoryFetched(trajectoryIndex, fetched),
                       BallSet(points[0].position, points[0].velocity),
                       MirroringBurst(SettlingBursts),
                       BallPlay(points)];
      log := log + cleared + posture + launched;

      var observation := CreateObservation(observationRead);
      return Success(observation);
    }

    /**
     * `step`.  `robotRead`, `ballRead` and `contact` are what the pressure channel, the
     * ball channel and the contact sensor return when the controller queries them.
     */
    method Step(action: seq<int>, robotRead: RobotState, ballRead: BallState, contact: ContactInfo)
      returns (observation: Observation, reward: Option<real>, episodeOver: bool)
      modifies this`tracker, this`log
      ensures tracker == ballStatus.update(old(tracker), ballRead, contact)
      ensures log == old(log)
                     + [PressuresRead(robotRead), BallGet(ballRead),
                        PressuresSet(ConvertPressuresIn(action))]
                     + (if accelerated then [PressuresBurst(nbRobotBursts)] else [])
                     + [MirroringSet(robotRead.jointPositions, robotRead.jointVelocities, None),
                        MirroringBurst(nbSimBursts),
                        ContactGet(contact)]
                     + (if tracker.minPositionBallTarget.Some?
                        then [HitPointSet(tracker.minPositionBallTarget.value, Zero)]
                        else [])
      ensures observation == Observe(robotRead, tracker)
      ensures episodeOver == BelowTable(tracker.ballPosition)
      ensures reward.None? <==> !episodeOver
      ensures episodeOver ==>
                reward == Some(Reward(smashTask, tracker.minDistanceBallRacket,
                                      tracker.minDistanceBallTarget, tracker.maxBallVelocity,
                                      c, rttCap, pow075))
      ensures episodeOver && tracker.minDistanceBallRacket.None? ==> reward.value >= rttCap
    {
      // reading the robot and the ball, then commanding the robot
      var commanded := [PressuresRead(robotRead), BallGet(ballRead),
                        PressuresSet(ConvertPressuresIn(action))];
      var robotBursts: seq<Event> := [];
      if accelerated {
        robotBursts := [PressuresBurst(nbRobotBursts)];
      }

      // mirroring the pre-action read, bursting the simulation, querying the contact
      var mirrored := [MirroringSet(robotRead.jointPositions, robotRead.jointVelocities, None),
                       MirroringBurst(nbSimBursts),
                       ContactGet(contact)];
      tracker := ballStatus.update(tracker, ballRead, contact);

      var hitPoint: seq<Event> := [];
      if tracker.minPositionBallTarget.Some? {
        hitPoint := [HitPointSet(tracker.minPositionBallTarget.value, Zero)];
      }
      log := log + commanded + robotBursts + mirrored + hitPoint;

      observation := Observe(robotRead, tracker);

      episodeOver := EpisodeOver();
      reward := None;
      if episodeOver {
        reward := Some(Reward(smashTask, tracker.minDistanceBallRacket,
                              tracker.minDistanceBallTarget, tracker.maxBallVelocity,
                              c, rttCap, pow075));
      }
    }
  }

  /**
   * A step whose ball reading is the state far below the table that `reset` appends
   * ends the episode and yields the terminal reward, for any tracker that records the
   * reading it is given.
   */
  method TerminalReadingEndsEpisode(env: HysrOneBall, action: seq<int>, robotRead: RobotState,
                                    contact: ContactInfo)
    returns (observation: Observation, reward: Option<real>, episodeOver: bool)
    requires RecordsReading(env.ballStatus)
    modifies env`tracker, env`log
    ensures env.tracker == env.ballStatus.update(old(env.tracker), TerminalState, contact)
    ensures BelowTable(env.tracker.ballPosition)
    ensures |env.log| >= |old(env.log)| + 6 && env.log[..|old(env.log)|] == old(env.log)
    ensures env.log[|old(env.log)| + 1] == BallGet(TerminalState)
    ensures observation == Observe(robotRead, env.tracker)
    ensures episodeOver && reward.Some?
    ensures reward.value == Reward(env.smashTask, env.tracker.minDistanceBallRacket,
                                   env.tracker.minDistanceBallTarget, env.tracker.maxBallVelocity,
                                   env.c, env.rttCap, env.pow075)
  {
    observation, reward, episodeOver := env.Step(action, robotRead, TerminalState, contact);
  }
}
