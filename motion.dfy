/**
 * Per-tick decision logic of the chassis motions (include/654X_Drive/chassis.h).
 *
 * Each motion runs a control loop in a task. The loop's live inputs (heading,
 * tracker and odometry readings, the PID controllers' outputs and their
 * `is_settled` verdict) arrive as a finite trace of ticks; the loop's local
 * variables become a small state record; one iteration is a step function;
 * the whole loop is a fold over the trace. A trace that ends before the loop
 * does leaves the motion running.
 */
module Motion {
  import opened DriveUtil
  import opened Wrappers

  /** What the chassis sensors and odometry report at one instant. */
  datatype Reading = Reading(position: Point, heading: real, forward: real)

  /**
   * One loop iteration's inputs: whether the primary PID reports settled at
   * the loop test, the readings, and what the two PID controllers return
   * when fed this iteration's errors.
   */
  datatype Tick = Tick(settled: bool, reading: Reading, pidOutput: real, pid2Output: real)

  /** Trigonometry, hypot and the settle-line test, which the model does not compute. */
  datatype Geometry = Geometry(
    /** hypot of the coordinate differences */
    dist: (Point, Point) -> real,
    /** to_deg(atan2(dx, dy)) of the vector from the first point to the second */
    bearing: (Point, Point) -> real,
    cosDeg: real -> real,
    sinDeg: real -> real,
    /** is_line_settled(target, angle, position) */
    lineSettled: (Point, real, Point) -> bool,
    /** line_circle_intersections(center, radius, p1, p2) */
    intersections: (Point, real, Point, Point) -> seq<Point>)

  /**
   * What the loops rely on: distances are never negative, and the
   * intersection routine answers as line_circle_intersections does.
   */
  ghost predicate ValidGeometry(g: Geometry) {
    && (forall p, q :: g.dist(p, q) >= 0.0)
    && (forall c, r, p1, p2 :: IntersectionsSound(g.intersections(c, r, p1, p2), c, r, p1, p2))
  }

  /** A geometry whose intersection routine is Intersections, over any square root, is valid. */
  lemma UtilGeometryIsValid(g: Geometry, sqrt: real -> real)
    requires forall p, q :: g.dist(p, q) >= 0.0
    requires forall c, r, p1, p2 :: g.intersections(c, r, p1, p2) == Intersections(c, r, p1, p2, sqrt)
    ensures ValidGeometry(g)
  {
    forall c, r, p1, p2
      ensures IntersectionsSound(g.intersections(c, r, p1, p2), c, r, p1, p2)
    {
      assert g.intersections(c, r, p1, p2) == Intersections(c, r, p1, p2, sqrt);
    }
  }

  datatype Gains = Gains(kp: real, ki: real, kd: real, starti: real)

  datatype ExitConditions = ExitConditions(settleError: real, settleTime: real, timeout: real)

  /**
   * A PID controller as seen from the motions: how it was constructed and
   * the errors it has been fed since, in order.
   */
  datatype Pid = Pid(gains: Gains, initialError: real, exits: Option<ExitConditions>, inputs: seq<real>)

  function Feed(pid: Pid, error: real): Pid { pid.(inputs := pid.inputs + [error]) }

  /** What a drive side is commanded to do: spin at a voltage, or brake in hold. */
  datatype Side = Volts(v: real) | Hold

  datatype DriveCmd = DriveCmd(left: Side, right: Side)

  /** Chassis state the loops change: distance traveled, both controllers, the last drive command. */
  datatype Book = Book(traveled: real, pid: Pid, pid2: Pid, drive: DriveCmd)

  /** Why a loop ended, or that the trace ended first. */
  datatype Exit = Settled | SignFlip | LineCrossed | PathDone | StillRunning

  datatype Outcome<S> = Outcome(exit: Exit, state: S, book: Book)

  /** One loop iteration after the settle test: it breaks out of the loop, or yields the next locals and bookkeeping. */
  datatype Step<S> = Stop(exit: Exit) | Next(state: S, book: Book)

  /** The output of a driving PID after the max-voltage clamp and the min-voltage floor. */
  function LimitedOutput(pidOutput: real, minVoltage: real, maxVoltage: real): real {
    ClampMinVoltage(Clamp(pidOutput, -maxVoltage, maxVoltage), minVoltage)
  }

  // ============================================================ turn loops

  /** Which sides a turn drives: both (a point turn), or one while the other holds. */
  datatype TurnKind = BothSides | LeftSwing | RightSwing

  /**
   * The constants of a turn loop: the mirrored target angle, the offset added
   * by the point variants (0 for the angle variants), the mirrored direction
   * preference and the voltage limits.
   */
  datatype TurnCfg = TurnCfg(angle: real, offset: real, dir: Direction, minVoltage: real, maxVoltage: real, kind: TurnKind)

  /** The loop locals `crossed`, `prev_error` and `prev_raw_error`. */
  datatype TurnState = TurnState(crossed: bool, prevError: real, prevRawError: real)

  function RawTurnError(cfg: TurnCfg, heading: real): real {
    AngleError(cfg.angle - heading + cfg.offset, Fastest)
  }

  function DirectedTurnError(cfg: TurnCfg, heading: real): real {
    AngleError(cfg.angle - heading + cfg.offset, cfg.dir)
  }

  /** The locals as the task initialises them from the heading at its start. */
  function StartTurn(cfg: TurnCfg, heading: real): TurnState {
    TurnState(false, DirectedTurnError(cfg, heading), RawTurnError(cfg, heading))
  }

  /**
   * The command of one turn iteration: a point turn spins the sides in
   * opposite directions, a left swing spins the left side forward, a right
   * swing spins the right side in reverse; the other side holds.
   */
  function TurnCommand(kind: TurnKind, output: real): (c: DriveCmd)
    ensures kind == BothSides ==> c.left.Volts? && c.right.Volts? && c.left.v == -c.right.v
    ensures kind == LeftSwing ==> c.right == Hold && c.left == Volts(output)
    ensures kind == RightSwing ==> c.left == Hold && c.right == Volts(-output)
  {
    match kind
    case BothSides => DriveCmd(Volts(output), Volts(-output))
    case LeftSwing => DriveCmd(Volts(output), Hold)
    case RightSwing => DriveCmd(Hold, Volts(-output))
  }

  /** The loop's `crossed` after this iteration: it was set, or the raw error changed sign now. */
  function CrossedNow(cfg: TurnCfg, s: TurnState, heading: real): bool {
    s.crossed || Sign(RawTurnError(cfg, heading)) != Sign(s.prevRawError)
  }

  /** The error this iteration follows: the raw error once crossed, the constrained one before. */
  function FollowedError(cfg: TurnCfg, s: TurnState, heading: real): real {
    if CrossedNow(cfg, s, heading) then RawTurnError(cfg, heading) else DirectedTurnError(cfg, heading)
  }

  /**
   * One turn iteration after the settle test: once the raw error changes
   * sign the target has been crossed and the loop follows the shortest-path
   * error; until then it follows the direction-constrained error. With a
   * minimum voltage set, a sign change of the followed error ends the loop
   * (motion chaining) before the distance, the PID or the drive is touched.
   * Otherwise the error change is added to the distance traveled, the error
   * is fed to the PID and the limited output drives the chosen sides.
   */
  function TurnStep(cfg: TurnCfg, t: Tick, s: TurnState, b: Book): (d: Step<TurnState>)
    ensures d.Stop? <==> (cfg.minVoltage != 0.0 && Sign(FollowedError(cfg, s, t.reading.heading)) != Sign(s.prevError))
    ensures d.Stop? ==> d.exit == SignFlip
    ensures d.Next? ==> d.state.crossed == (s.crossed || Sign(RawTurnError(cfg, t.reading.heading)) != Sign(s.prevRawError))
    ensures d.Next? ==> d.state.prevRawError == RawTurnError(cfg, t.reading.heading)
    ensures d.Next? && d.state.crossed ==> d.state.prevError == RawTurnError(cfg, t.reading.heading)
    ensures d.Next? && !d.state.crossed ==> d.state.prevError == DirectedTurnError(cfg, t.reading.heading)
    ensures d.Next? ==> d.book.drive == TurnCommand(cfg.kind, LimitedOutput(t.pidOutput, cfg.minVoltage, cfg.maxVoltage))
    ensures d.Next? ==> d.book.pid.inputs == b.pid.inputs + [d.state.prevError] && d.book.pid2 == b.pid2
    ensures d.Next? ==> d.book.traveled == b.traveled + Abs(d.state.prevError - s.prevError)
    ensures d.Next? && s.crossed ==> d.state.crossed
    ensures d.Next? && d.state.crossed ==> -180.0 <= d.state.prevError < 180.0
    ensures d.Next? && !d.state.crossed && cfg.dir == CW ==> d.state.prevError >= 0.0
    ensures d.Next? && !d.state.crossed && cfg.dir == CCW ==> d.state.prevError <= 0.0
    ensures d.Next? ==> Congruent(d.state.prevError, cfg.angle - t.reading.heading + cfg.offset, 360.0)
    ensures d.Next? && cfg.minVoltage != 0.0 ==> Sign(d.state.prevError) == Sign(s.prevError)
  {
    var heading := t.reading.heading;
    var raw := RawTurnError(cfg, heading);
    var crossed := CrossedNow(cfg, s, heading);
    var error := FollowedError(cfg, s, heading);
    if cfg.minVoltage != 0.0 && Sign(error) != Sign(s.prevError) then Stop(SignFlip)
    else
      var output := LimitedOutput(t.pidOutput, cfg.minVoltage, cfg.maxVoltage);
      Next(TurnState(crossed, error, raw),
           Book(b.traveled + Abs(error - s.prevError), Feed(b.pid, error), b.pid2, TurnCommand(cfg.kind, output)))
  }

  /** The turn loop from iteration i on: `while (!pid.is_settled())` over the trace. */
  function TurnRun(cfg: TurnCfg, ticks: seq<Tick>, i: nat, s: TurnState, b: Book): Outcome<TurnState>
    requires i <= |ticks|
    decreases |ticks| - i
  {
    if i == |ticks| then Outcome(StillRunning, s, b)
    else if ticks[i].settled then Outcome(Settled, s, b)
    else match TurnStep(cfg, ticks[i], s, b)
      case Stop(e) => Outcome(e, s, b)
      case Next(s', b') => TurnRun(cfg, ticks, i + 1, s', b')
  }

  /**
   * A turn loop ends by settling, by the chaining sign flip (only with a
   * minimum voltage), or not at all within a trace none of whose ticks
   * settled.
   */
  lemma {:induction false} TurnRunExit(cfg: TurnCfg, ticks: seq<Tick>, i: nat, s: TurnState, b: Book)
    requires i <= |ticks|
    ensures var o := TurnRun(cfg, ticks, i, s, b);
      && (o.exit == Settled || o.exit == SignFlip || o.exit == StillRunning)
      && (o.exit == SignFlip ==> cfg.minVoltage != 0.0)
      && (o.exit == StillRunning ==> forall j :: i <= j < |ticks| ==> !ticks[j].settled)
      && (cfg.minVoltage == 0.0 ==> (o.exit == StillRunning <==> forall j :: i <= j < |ticks| ==> !ticks[j].settled))
    decreases |ticks| - i
  {
    if i < |ticks| && !ticks[i].settled {
      match TurnStep(cfg, ticks[i], s, b)
      case Stop(_) =>
      case Next(s', b') => TurnRunExit(cfg, ticks, i + 1, s', b');
    }
  }

  /**
   * Over a turn loop the distance traveled never shrinks and is at least the
   * net change of the followed error; `crossed`, once set, stays set.
   */
  lemma {:induction false} TurnRunTraveled(cfg: TurnCfg, ticks: seq<Tick>, i: nat, s: TurnState, b: Book)
    requires i <= |ticks|
    ensures var o := TurnRun(cfg, ticks, i, s, b);
      && o.book.traveled - b.traveled >= Abs(o.state.prevError - s.prevError)
      && o.book.traveled >= b.traveled
      && (s.crossed ==> o.state.crossed)
    decreases |ticks| - i
  {
    if i < |ticks| && !ticks[i].settled {
      match TurnStep(cfg, ticks[i], s, b)
      case Stop(_) =>
      case Next(s', b') => TurnRunTraveled(cfg, ticks, i + 1, s', b');
    }
  }

  /**
   * A turn loop only ever appends to the PID's history, one error per
   * iteration, and leaves the heading PID untouched; while the target has
   * not been crossed every error fed respects the direction preference.
   */
  lemma {:induction false} TurnRunInputs(cfg: TurnCfg, ticks: seq<Tick>, i: nat, s: TurnState, b: Book)
    requires i <= |ticks|
    ensures var o := TurnRun(cfg, ticks, i, s, b);
      && b.pid.inputs <= o.book.pid.inputs
      && |o.book.pid.inputs| - |b.pid.inputs| <= |ticks| - i
      && o.book.pid2 == b.pid2
      && (!o.state.crossed && cfg.dir == CW ==>
            forall k :: |b.pid.inputs| <= k < |o.book.pid.inputs| ==> o.book.pid.inputs[k] >= 0.0)
      && (!o.state.crossed && cfg.dir == CCW ==>
            forall k :: |b.pid.inputs| <= k < |o.book.pid.inputs| ==> o.book.pid.inputs[k] <= 0.0)
    decreases |ticks| - i
  {
    if i < |ticks| && !ticks[i].settled {
      match TurnStep(cfg, ticks[i], s, b)
      case Stop(_) =>
      case Next(s', b') =>
        TurnRunInputs(cfg, ticks, i + 1, s', b');
        TurnRunTraveled(cfg, ticks, i + 1, s', b');
    }
  }

  /** fed[k] is the shortest-path error at tick i + k, for every error fed. */
  ghost predicate FedRawErrors(cfg: TurnCfg, ticks: seq<Tick>, i: nat, fed: seq<real>) {
    i + |fed| <= |ticks| &&
    forall k :: 0 <= k < |fed| ==> fed[k] == RawTurnError(cfg, ticks[i + k].reading.heading)
  }

  /** Prepending the raw error at tick i to raw errors fed from tick i + 1 on. */
  lemma FedRawErrorsCons(cfg: TurnCfg, ticks: seq<Tick>, i: nat, rest: seq<real>)
    requires i < |ticks| && FedRawErrors(cfg, ticks, i + 1, rest)
    ensures FedRawErrors(cfg, ticks, i, [RawTurnError(cfg, ticks[i].reading.heading)] + rest)
  {
    var fed := [RawTurnError(cfg, ticks[i].reading.heading)] + rest;
    forall k | 0 <= k < |fed|
      ensures fed[k] == RawTurnError(cfg, ticks[i + k].reading.heading)
    {
      if k > 0 {
        assert fed[k] == rest[k - 1];
      }
    }
  }

  /**
   * Once the raw error has changed sign (the target has been crossed, at
   * the tick i or before), every error the loop feeds its PID from tick i
   * on is that tick's shortest-path error, whatever the direction
   * preference.
   */
  lemma {:induction false} TurnRunFollowsRawAfterCrossing(cfg: TurnCfg, ticks: seq<Tick>, i: nat, s: TurnState, b: Book)
    requires i < |ticks| && CrossedNow(cfg, s, ticks[i].reading.heading)
    ensures var o := TurnRun(cfg, ticks, i, s, b);
      b.pid.inputs <= o.book.pid.inputs &&
      FedRawErrors(cfg, ticks, i, o.book.pid.inputs[|b.pid.inputs|..])
    decreases |ticks| - i
  {
    if !ticks[i].settled {
      match TurnStep(cfg, ticks[i], s, b)
      case Stop(_) =>
      case Next(s', b') =>
        var fed := TurnRun(cfg, ticks, i + 1, s', b').book.pid.inputs;
        if i + 1 < |ticks| {
          assert CrossedNow(cfg, s', ticks[i + 1].reading.heading);
          TurnRunFollowsRawAfterCrossing(cfg, ticks, i + 1, s', b');
        } else {
          assert fed == b'.pid.inputs;
        }
        SuffixAfterPrefix(b.pid.inputs, RawTurnError(cfg, ticks[i].reading.heading), fed);
        FedRawErrorsCons(cfg, ticks, i, fed[|b'.pid.inputs|..]);
    }
  }

  /** Two traces that agree on what a turn loop reads. */
  ghost predicate SameTurnInputs(t1: seq<Tick>, t2: seq<Tick>) {
    |t1| == |t2| &&
    forall j :: 0 <= j < |t1| ==>
      t1[j].settled == t2[j].settled && t1[j].reading.heading == t2[j].reading.heading &&
      t1[j].pidOutput == t2[j].pidOutput
  }

  /**
   * The turn loops never read the position: a point turn aims at the bearing
   * fixed before its loop, wherever the robot moves meanwhile.
   */
  lemma {:induction false} TurnRunIgnoresPosition(cfg: TurnCfg, t1: seq<Tick>, t2: seq<Tick>, i: nat, s: TurnState, b: Book)
    requires i <= |t1|
    requires SameTurnInputs(t1, t2)
    ensures TurnRun(cfg, t1, i, s, b) == TurnRun(cfg, t2, i, s, b)
    decreases |t1| - i
  {
    if i < |t1| && !t1[i].settled {
      assert TurnStep(cfg, t1[i], s, b) == TurnStep(cfg, t2[i], s, b);
      match TurnStep(cfg, t1[i], s, b)
      case Stop(_) =>
      case Next(s', b') => TurnRunIgnoresPosition(cfg, t1, t2, i + 1, s', b');
    }
  }

  // ======================================================== drive distance

  /** The constants of drive_distance's loop; `start` is the forward tracker at task start. */
  datatype DistanceCfg = DistanceCfg(distance: real, heading: real, start: real,
                                     minVoltage: real, maxVoltage: real, headingMaxVoltage: real)

  /** The error still to drive, from a forward tracker reading. */
  function DistanceError(cfg: DistanceCfg, forward: real): real {
    cfg.distance + cfg.start - forward
  }

  /** Drive and heading outputs combined arcade-style without voltage scaling. */
  function ArcadeCommand(drive: real, heading: real): (c: DriveCmd)
    ensures c.left.Volts? && c.right.Volts?
    ensures c.left.v + c.right.v == 2.0 * drive && c.left.v - c.right.v == 2.0 * heading
  {
    DriveCmd(Volts(drive + heading), Volts(drive - heading))
  }

  /**
   * One drive_distance iteration; the state is `prev_drive_error`. The
   * heading error fed to the second PID is the reduced difference to the
   * heading to hold.
   */
  function DistanceStep(cfg: DistanceCfg, t: Tick, prevError: real, b: Book): (d: Step<real>)
    ensures d.Next?
    ensures d.state == cfg.distance + cfg.start - t.reading.forward
    ensures d.book.traveled == b.traveled + Abs(d.state - prevError) >= b.traveled
    ensures d.book.pid.inputs == b.pid.inputs + [d.state]
    ensures d.book.pid2.inputs == b.pid2.inputs + [ReduceNegative180To180(cfg.heading - t.reading.heading)]
    ensures -180.0 <= d.book.pid2.inputs[|b.pid2.inputs|] < 180.0
    ensures d.book.pid.exits == b.pid.exits && d.book.pid2.exits == b.pid2.exits
    ensures d.book.drive.left.Volts? && d.book.drive.right.Volts?
    ensures cfg.maxVoltage >= 0.0 && cfg.minVoltage <= cfg.maxVoltage ==>
      Abs(d.book.drive.left.v + d.book.drive.right.v) <= 2.0 * cfg.maxVoltage
    ensures cfg.headingMaxVoltage >= 0.0 ==>
      Abs(d.book.drive.left.v - d.book.drive.right.v) <= 2.0 * cfg.headingMaxVoltage
    ensures d.book.drive == ArcadeCommand(LimitedOutput(t.pidOutput, cfg.minVoltage, cfg.maxVoltage),
                                          Clamp(t.pid2Output, -cfg.headingMaxVoltage, cfg.headingMaxVoltage))
  {
    var error := DistanceError(cfg, t.reading.forward);
    var headingError := ReduceNegative180To180(cfg.heading - t.reading.heading);
    var drive := LimitedOutput(t.pidOutput, cfg.minVoltage, cfg.maxVoltage);
    var heading := Clamp(t.pid2Output, -cfg.headingMaxVoltage, cfg.headingMaxVoltage);
    Next(error, Book(b.traveled + Abs(error - prevError), Feed(b.pid, error), Feed(b.pid2, headingError),
                     ArcadeCommand(drive, heading)))
  }

  /** drive_distance's loop from iteration i on. */
  function DistanceRun(cfg: DistanceCfg, ticks: seq<Tick>, i: nat, prevError: real, b: Book): Outcome<real>
    requires i <= |ticks|
    decreases |ticks| - i
  {
    if i == |ticks| then Outcome(StillRunning, prevError, b)
    else if ticks[i].settled then Outcome(Settled, prevError, b)
    else match DistanceStep(cfg, ticks[i], prevError, b)
      case Stop(e) => Outcome(e, prevError, b)
      case Next(e', b') => DistanceRun(cfg, ticks, i + 1, e', b')
  }

  /** drive_distance ends only by settling: a trace none of whose ticks settle leaves it running. */
  lemma {:induction false} DistanceRunExit(cfg: DistanceCfg, ticks: seq<Tick>, i: nat, prevError: real, b: Book)
    requires i <= |ticks|
    ensures var o := DistanceRun(cfg, ticks, i, prevError, b);
      && (o.exit == Settled || o.exit == StillRunning)
      && (o.exit == StillRunning <==> forall j :: i <= j < |ticks| ==> !ticks[j].settled)
    decreases |ticks| - i
  {
    if i < |ticks| && !ticks[i].settled {
      match DistanceStep(cfg, ticks[i], prevError, b)
      case Stop(_) =>
      case Next(e', b') => DistanceRunExit(cfg, ticks, i + 1, e', b');
    }
  }

  /**
   * Over drive_distance the distance traveled is at least the net change of
   * the drive error; both PIDs receive one new error per iteration, and
   * every heading error lies in [-180, 180).
   */
  lemma {:induction false} DistanceRunInputs(cfg: DistanceCfg, ticks: seq<Tick>, i: nat, prevError: real, b: Book)
    requires i <= |ticks|
    ensures var o := DistanceRun(cfg, ticks, i, prevError, b);
      && o.book.traveled - b.traveled >= Abs(o.state - prevError)
      && b.pid.inputs <= o.book.pid.inputs && b.pid2.inputs <= o.book.pid2.inputs
      && |o.book.pid.inputs| - |b.pid.inputs| == |o.book.pid2.inputs| - |b.pid2.inputs| <= |ticks| - i
      && (forall k :: |b.pid2.inputs| <= k < |o.book.pid2.inputs| ==> -180.0 <= o.book.pid2.inputs[k] < 180.0)
    decreases |ticks| - i
  {
    if i < |ticks| && !ticks[i].settled {
      match DistanceStep(cfg, ticks[i], prevError, b)
      case Stop(_) =>
      case Next(e', b') => DistanceRunInputs(cfg, ticks, i + 1, e', b');
    }
  }

  // ======================================================== drive to point

  /** The constants of drive_to_point's loop; `heading` is the bearing to the target at entry. */
  datatype PointCfg = PointCfg(target: Point, heading: real, minVoltage: real, maxVoltage: real,
                               headingMaxVoltage: real, settleError: real)

  /** The loop locals `prev_line_settled` and `prev_drive_error`. */
  datatype PointState = PointState(prevLineSettled: bool, prevDriveError: real)

  /**
   * The steering command shared by the point and pose loops: the drive output
   * is scaled by the heading error's cosine and clamped to that fraction of
   * the max voltage, the heading output is clamped, the drive output gets the
   * minimum-voltage floor, and both sides are scaled to stay within 12 V.
   */
  function SteerCommand(cosScale: real, driveOut: real, headingOut: real,
                        minVoltage: real, maxVoltage: real, headingMaxVoltage: real): (c: DriveCmd)
    ensures c.left.Volts? && c.right.Volts?
    ensures Abs(c.left.v) <= MAX_VOLTAGE && Abs(c.right.v) <= MAX_VOLTAGE
    ensures headingOut == 0.0 && headingMaxVoltage >= 0.0 ==> c.left == c.right
  {
    var d := Clamp(driveOut * cosScale, -Abs(cosScale) * maxVoltage, Abs(cosScale) * maxVoltage);
    var h := Clamp(headingOut, -headingMaxVoltage, headingMaxVoltage);
    var d2 := ClampMinVoltage(d, minVoltage);
    VoltageScalingBounds(d2, h);
    DriveCmd(Volts(LeftVoltageScaling(d2, h)), Volts(RightVoltageScaling(d2, h)))
  }

  /**
   * One drive_to_point iteration: newly reaching the settle line through the
   * target ends the loop; otherwise the PIDs get the distance and the
   * heading error towards the target, and within the settle radius the
   * heading correction is dropped so the robot drives straight.
   */
  function PointStep(g: Geometry, cfg: PointCfg, t: Tick, s: PointState, b: Book): (d: Step<PointState>)
    ensures d.Stop? <==> g.lineSettled(cfg.target, cfg.heading, t.reading.position) && !s.prevLineSettled
    ensures d.Stop? ==> d.exit == LineCrossed
    ensures d.Next? ==> d.state.prevLineSettled == g.lineSettled(cfg.target, cfg.heading, t.reading.position)
    ensures d.Next? ==> d.book.pid.inputs == b.pid.inputs + [g.dist(cfg.target, t.reading.position)]
    ensures d.Next? ==> |d.book.pid2.inputs| == |b.pid2.inputs| + 1 && b.pid2.inputs <= d.book.pid2.inputs
    ensures d.Next? ==>
      d.book.pid2.inputs[|b.pid2.inputs|]
        == ReduceNegative90To90(ReduceNegative180To180(g.bearing(t.reading.position, cfg.target) - t.reading.heading))
    ensures d.Next? ==> -90.0 <= d.book.pid2.inputs[|b.pid2.inputs|] < 90.0
    ensures d.Next? ==> d.state.prevDriveError == g.dist(cfg.target, t.reading.position)
    ensures d.Next? ==> d.book.traveled == b.traveled + Abs(d.state.prevDriveError - s.prevDriveError)
    ensures d.Next? ==>
      d.book.drive == SteerCommand(g.cosDeg(ReduceNegative180To180(g.bearing(t.reading.position, cfg.target) - t.reading.heading)),
                                   t.pidOutput, if d.state.prevDriveError < cfg.settleError then 0.0 else t.pid2Output,
                                   cfg.minVoltage, cfg.maxVoltage, cfg.headingMaxVoltage)
    ensures d.Next? && cfg.headingMaxVoltage >= 0.0 && d.state.prevDriveError < cfg.settleError ==>
      d.book.drive.left == d.book.drive.right
  {
    var pos := t.reading.position;
    var lineSettled := g.lineSettled(cfg.target, cfg.heading, pos);
    if lineSettled && !s.prevLineSettled then Stop(LineCrossed)
    else
      var driveError := g.dist(cfg.target, pos);
      var headingError := ReduceNegative180To180(g.bearing(pos, cfg.target) - t.reading.heading);
      var headingOut := if driveError < cfg.settleError then 0.0 else t.pid2Output;
      var cmd := SteerCommand(g.cosDeg(headingError), t.pidOutput, headingOut, cfg.minVoltage, cfg.maxVoltage, cfg.headingMaxVoltage);
      Next(PointState(lineSettled, driveError),
           Book(b.traveled + Abs(driveError - s.prevDriveError), Feed(b.pid, driveError),
                Feed(b.pid2, ReduceNegative90To90(headingError)), cmd))
  }

  /** drive_to_point's loop from iteration i on. */
  function PointRun(g: Geometry, cfg: PointCfg, ticks: seq<Tick>, i: nat, s: PointState, b: Book): Outcome<PointState>
    requires i <= |ticks|
    decreases |ticks| - i
  {
    if i == |ticks| then Outcome(StillRunning, s, b)
    else if ticks[i].settled then Outcome(Settled, s, b)
    else match PointStep(g, cfg, ticks[i], s, b)
      case Stop(e) => Outcome(e, s, b)
      case Next(s', b') => PointRun(g, cfg, ticks, i + 1, s', b')
  }

  /** drive_to_point ends by settling, or on a tick whose position is past the settle line. */
  lemma {:induction false} PointRunExit(g: Geometry, cfg: PointCfg, ticks: seq<Tick>, i: nat, s: PointState, b: Book)
    requires i <= |ticks|
    ensures var o := PointRun(g, cfg, ticks, i, s, b);
      && (o.exit == Settled || o.exit == LineCrossed || o.exit == StillRunning)
      && (o.exit == LineCrossed ==>
            exists j :: i <= j < |ticks| && g.lineSettled(cfg.target, cfg.heading, ticks[j].reading.position))
      && (o.exit == StillRunning ==> forall j :: i <= j < |ticks| ==> !ticks[j].settled)
    decreases |ticks| - i
  {
    if i < |ticks| && !ticks[i].settled {
      match PointStep(g, cfg, ticks[i], s, b)
      case Stop(_) =>
      case Next(s', b') => PointRunExit(g, cfg, ticks, i + 1, s', b');
    }
  }

  /**
   * Over drive_to_point the distance traveled is at least the net change of
   * the drive error; both PIDs are only appended to, and every heading error
   * fed lies in [-90, 90).
   */
  lemma {:induction false} PointRunInputs(g: Geometry, cfg: PointCfg, ticks: seq<Tick>, i: nat, s: PointState, b: Book)
    requires i <= |ticks|
    ensures var o := PointRun(g, cfg, ticks, i, s, b);
      && o.book.traveled - b.traveled >= Abs(o.state.prevDriveError - s.prevDriveError)
      && b.pid.inputs <= o.book.pid.inputs && b.pid2.inputs <= o.book.pid2.inputs
      && (forall k :: |b.pid2.inputs| <= k < |o.book.pid2.inputs| ==> -90.0 <= o.book.pid2.inputs[k] < 90.0)
    decreases |ticks| - i
  {
    if i < |ticks| && !ticks[i].settled {
      match PointStep(g, cfg, ticks[i], s, b)
      case Stop(_) =>
      case Next(s', b') => PointRunInputs(g, cfg, ticks, i + 1, s', b');
    }
  }

  // ========================================================= drive to pose

  /**
   * The constants of drive_to_pose's loop: the mirrored target and final
   * angle, the boomerang lead and setback, the limits, and the side of the
   * center line (the line through the target perpendicular to the final
   * angle) the robot started on.
   */
  datatype PoseCfg = PoseCfg(target: Point, angle: real, lead: real, setback: real, minVoltage: real,
                             maxVoltage: real, headingMaxVoltage: real, settleError: real, startSide: bool)

  /** The loop locals `prev_line_settled`, `crossed_center_line` and `prev_drive_error`. */
  datatype PoseState = PoseState(prevLineSettled: bool, crossedCenterLine: bool, prevDriveError: real)

  /** The carrot point: the target pushed back along the final heading by lead * distance + setback. */
  function Carrot(g: Geometry, cfg: PoseCfg, targetDistance: real): Point {
    var back := cfg.lead * targetDistance + cfg.setback;
    Point(cfg.target.x - g.sinDeg(cfg.angle) * back, cfg.target.y - g.cosDeg(cfg.angle) * back)
  }

  /** Which side of the center line a position is on. */
  function CenterSide(g: Geometry, cfg: PoseCfg, pos: Point): bool {
    g.lineSettled(cfg.target, cfg.angle + 90.0, pos)
  }

  /** The loop locals as drive_to_pose initialises them from the position at its start. */
  function StartPose(g: Geometry, cfg: PoseCfg, pos: Point): PoseState {
    PoseState(g.lineSettled(cfg.target, cfg.angle, pos), false, g.dist(Carrot(g, cfg, g.dist(cfg.target, pos)), pos))
  }

  /**
   * The errors one pose iteration feeds its controllers. Near the carrot,
   * within the setback, or once the center line has been crossed, the loop
   * switches to settling: it aims at the final angle and drives on the
   * straight distance to the target; otherwise it chases the carrot.
   */
  function PoseErrors(g: Geometry, cfg: PoseCfg, crossed: bool, r: Reading): (e: (real, real))
    ensures -180.0 <= e.1 < 180.0
    ensures var carrotDist := g.dist(Carrot(g, cfg, g.dist(cfg.target, r.position)), r.position);
            carrotDist < cfg.settleError || crossed || carrotDist < cfg.setback ==>
              e.0 == g.dist(cfg.target, r.position) && e.1 == ReduceNegative180To180(cfg.angle - r.heading)
    ensures var carrotDist := g.dist(Carrot(g, cfg, g.dist(cfg.target, r.position)), r.position);
            !(carrotDist < cfg.settleError || crossed || carrotDist < cfg.setback) ==>
              e.0 == carrotDist &&
              e.1 == ReduceNegative180To180(g.bearing(r.position, Carrot(g, cfg, g.dist(cfg.target, r.position))) - r.heading)
  {
    var targetDistance := g.dist(cfg.target, r.position);
    var carrot := Carrot(g, cfg, targetDistance);
    var driveError := g.dist(carrot, r.position);
    if driveError < cfg.settleError || crossed || driveError < cfg.setback then
      (targetDistance, ReduceNegative180To180(cfg.angle - r.heading))
    else
      (driveError, ReduceNegative180To180(g.bearing(r.position, carrot) - r.heading))
  }

  /**
   * One drive_to_pose iteration: newly reaching the settle line ends the
   * loop; the center-line side is compared with the side at the start of the
   * task (the previous side is never updated), so the crossing flag, once
   * set, stays set. The distance traveled follows the carrot distance even
   * when the controller is fed the target distance. No heading zeroing.
   */
  function PoseStep(g: Geometry, cfg: PoseCfg, t: Tick, s: PoseState, b: Book): (d: Step<PoseState>)
    ensures d.Stop? <==> g.lineSettled(cfg.target, cfg.angle, t.reading.position) && !s.prevLineSettled
    ensures d.Stop? ==> d.exit == LineCrossed
    ensures d.Next? ==> (d.state.crossedCenterLine <==>
                          s.crossedCenterLine || CenterSide(g, cfg, t.reading.position) != cfg.startSide)
    ensures d.Next? && d.state.crossedCenterLine ==>
      d.book.pid.inputs == b.pid.inputs + [g.dist(cfg.target, t.reading.position)]
    ensures d.Next? ==> |d.book.pid.inputs| == |b.pid.inputs| + 1 && b.pid.inputs <= d.book.pid.inputs
    ensures d.Next? ==>
      d.state.prevDriveError == g.dist(Carrot(g, cfg, g.dist(cfg.target, t.reading.position)), t.reading.position)
    ensures d.Next? ==> d.book.traveled == b.traveled + Abs(d.state.prevDriveError - s.prevDriveError)
    ensures d.Next? ==> b.pid2.inputs <= d.book.pid2.inputs
    ensures d.Next? ==> d.book.pid.inputs == b.pid.inputs + [PoseErrors(g, cfg, d.state.crossedCenterLine, t.reading).0]
    ensures d.Next? ==>
      d.book.pid2.inputs == b.pid2.inputs + [ReduceNegative90To90(PoseErrors(g, cfg, d.state.crossedCenterLine, t.reading).1)]
    ensures d.Next? ==>
      d.book.drive == SteerCommand(g.cosDeg(PoseErrors(g, cfg, d.state.crossedCenterLine, t.reading).1), t.pidOutput,
                                   t.pid2Output, cfg.minVoltage, cfg.maxVoltage, cfg.headingMaxVoltage)
  {
    var r := t.reading;
    var lineSettled := g.lineSettled(cfg.target, cfg.angle, r.position);
    if lineSettled && !s.prevLineSettled then Stop(LineCrossed)
    else
      var crossed := s.crossedCenterLine || CenterSide(g, cfg, r.position) != cfg.startSide;
      var carrotDistance := g.dist(Carrot(g, cfg, g.dist(cfg.target, r.position)), r.position);
      var (driveError, headingError) := PoseErrors(g, cfg, crossed, r);
      var cmd := SteerCommand(g.cosDeg(headingError), t.pidOutput, t.pid2Output,
                              cfg.minVoltage, cfg.maxVoltage, cfg.headingMaxVoltage);
      Next(PoseState(lineSettled, crossed, carrotDistance),
           Book(b.traveled + Abs(carrotDistance - s.prevDriveError), Feed(b.pid, driveError),
                Feed(b.pid2, ReduceNegative90To90(headingError)), cmd))
  }

  /** drive_to_pose's loop from iteration i on. */
  function PoseRun(g: Geometry, cfg: PoseCfg, ticks: seq<Tick>, i: nat, s: PoseState, b: Book): Outcome<PoseState>
    requires i <= |ticks|
    decreases |ticks| - i
  {
    if i == |ticks| then Outcome(StillRunning, s, b)
    else if ticks[i].settled then Outcome(Settled, s, b)
    else match PoseStep(g, cfg, ticks[i], s, b)
      case Stop(e) => Outcome(e, s, b)
      case Next(s', b') => PoseRun(g, cfg, ticks, i + 1, s', b')
  }

  /**
   * drive_to_pose ends by settling or past the settle line; the crossing flag
   * is sticky and is raised only by a tick on the other side of the center
   * line from the start.
   */
  lemma {:induction false} PoseRunExit(g: Geometry, cfg: PoseCfg, ticks: seq<Tick>, i: nat, s: PoseState, b: Book)
    requires i <= |ticks|
    ensures var o := PoseRun(g, cfg, ticks, i, s, b);
      && (o.exit == Settled || o.exit == LineCrossed || o.exit == StillRunning)
      && (o.exit == LineCrossed ==>
            exists j :: i <= j < |ticks| && g.lineSettled(cfg.target, cfg.angle, ticks[j].reading.position))
      && (o.exit == StillRunning ==> forall j :: i <= j < |ticks| ==> !ticks[j].settled)
      && (s.crossedCenterLine ==> o.state.crossedCenterLine)
      && (o.state.crossedCenterLine && !s.crossedCenterLine ==>
            exists j :: i <= j < |ticks| && CenterSide(g, cfg, ticks[j].reading.position) != cfg.startSide)
    decreases |ticks| - i
  {
    if i < |ticks| && !ticks[i].settled {
      match PoseStep(g, cfg, ticks[i], s, b)
      case Stop(_) =>
      case Next(s', b') => PoseRunExit(g, cfg, ticks, i + 1, s', b');
    }
  }

  /**
   * Over drive_to_pose the distance traveled is at least the net change of
   * the carrot distance, and both PIDs are only appended to.
   */
  lemma {:induction false} PoseRunInputs(g: Geometry, cfg: PoseCfg, ticks: seq<Tick>, i: nat, s: PoseState, b: Book)
    requires i <= |ticks|
    ensures var o := PoseRun(g, cfg, ticks, i, s, b);
      && o.book.traveled - b.traveled >= Abs(o.state.prevDriveError - s.prevDriveError)
      && b.pid.inputs <= o.book.pid.inputs && b.pid2.inputs <= o.book.pid2.inputs
    decreases |ticks| - i
  {
    if i < |ticks| && !ticks[i].settled {
      match PoseStep(g, cfg, ticks[i], s, b)
      case Stop(_) =>
      case Next(s', b') => PoseRunInputs(g, cfg, ticks, i + 1, s', b');
    }
  }

  /** fed[k] is the distance to the target at tick i + k, for every error fed. */
  ghost predicate FedTargetDistances(g: Geometry, cfg: PoseCfg, ticks: seq<Tick>, i: nat, fed: seq<real>) {
    i + |fed| <= |ticks| &&
    forall k :: 0 <= k < |fed| ==> fed[k] == g.dist(cfg.target, ticks[i + k].reading.position)
  }

  /** Prepending the distance at tick i to distances fed from tick i + 1 on. */
  lemma FedTargetDistancesCons(g: Geometry, cfg: PoseCfg, ticks: seq<Tick>, i: nat, rest: seq<real>)
    requires i < |ticks| && FedTargetDistances(g, cfg, ticks, i + 1, rest)
    ensures FedTargetDistances(g, cfg, ticks, i, [g.dist(cfg.target, ticks[i].reading.position)] + rest)
  {
    var fed := [g.dist(cfg.target, ticks[i].reading.position)] + rest;
    forall k | 0 <= k < |fed|
      ensures fed[k] == g.dist(cfg.target, ticks[i + k].reading.position)
    {
      if k > 0 {
        assert fed[k] == rest[k - 1];
      }
    }
  }

  /** What follows a prefix xs + [d] of ys. */
  lemma SuffixAfterPrefix<T>(xs: seq<T>, d: T, ys: seq<T>)
    requires xs + [d] <= ys
    ensures ys[|xs|..] == [d] + ys[|xs| + 1..]
  {
    assert ys[|xs|] == (xs + [d])[|xs|];
  }

  /**
   * The boomerang mode switch: once the center line has been crossed, every
   * later iteration feeds the drive PID the straight distance from that
   * tick's position to the target.
   */
  lemma {:induction false} PoseRunSettlesOnTarget(g: Geometry, cfg: PoseCfg, ticks: seq<Tick>, i: nat, s: PoseState, b: Book)
    requires i <= |ticks| && s.crossedCenterLine
    ensures var o := PoseRun(g, cfg, ticks, i, s, b);
      b.pid.inputs <= o.book.pid.inputs &&
      FedTargetDistances(g, cfg, ticks, i, o.book.pid.inputs[|b.pid.inputs|..])
    decreases |ticks| - i
  {
    if i < |ticks| && !ticks[i].settled {
      match PoseStep(g, cfg, ticks[i], s, b)
      case Stop(_) =>
      case Next(s', b') =>
        PoseRunSettlesOnTarget(g, cfg, ticks, i + 1, s', b');
        var fed := PoseRun(g, cfg, ticks, i + 1, s', b').book.pid.inputs;
        SuffixAfterPrefix(b.pid.inputs, g.dist(cfg.target, ticks[i].reading.position), fed);
        FedTargetDistancesCons(g, cfg, ticks, i, fed[|b'.pid.inputs|..]);
    }
  }

  // =========================================================== follow path

  /** The constants of follow_path's loop. */
  datatype PathCfg = PathCfg(lookahead: real, maxVoltage: real, headingMaxVoltage: real, settleError: real)

  /** The segment index, `target_intersection` and `prev_position`. */
  datatype PathState = PathState(segment: nat, target: Point, prevPosition: Point)

  /**
   * The pure-pursuit choice: of two intersections the one closer to the end
   * of the segment (the second on a tie), the only one if there is one, and
   * the previous target otherwise.
   */
  function PursuitTarget(g: Geometry, intersections: seq<Point>, end: Point, current: Point): (r: Point)
    ensures |intersections| != 1 && |intersections| != 2 ==> r == current
    ensures |intersections| == 1 ==> r == intersections[0]
    ensures |intersections| == 2 ==>
      r in intersections && forall q :: q in intersections ==> g.dist(r, end) <= g.dist(q, end)
    ensures |intersections| == 2 && g.dist(intersections[0], end) == g.dist(intersections[1], end) ==>
      r == intersections[1]
  {
    if |intersections| == 2 then
      if g.dist(intersections[0], end) < g.dist(intersections[1], end) then intersections[0] else intersections[1]
    else if |intersections| == 1 then intersections[0]
    else current
  }

  /** q lies on one of the path's segments. */
  ghost predicate OnPath(q: Point, path: seq<Point>) {
    exists m :: 0 <= m < |path| - 1 && OnSegment(q, path[m], path[m + 1])
  }

  /** The points where the lookahead circle around pos meets a segment. */
  function LookaheadIntersections(g: Geometry, pos: Point, radius: real, start: Point, end: Point): (r: seq<Point>)
    requires ValidGeometry(g)
    ensures |r| <= 2
    ensures forall k :: 0 <= k < |r| ==> DistSq(r[k], pos) == radius * radius && OnSegment(r[k], start, end)
  {
    g.intersections(pos, radius, start, end)
  }

  /**
   * The lookahead target of one pursuit iteration: the pursuit choice among
   * the points where the lookahead circle meets the segment. A new target
   * lies on the segment at the lookahead distance from the robot.
   */
  function LookaheadTarget(g: Geometry, pos: Point, radius: real, start: Point, end: Point, current: Point): (r: Point)
    requires ValidGeometry(g)
    ensures r == current || OnSegment(r, start, end)
    ensures r != current ==> DistSq(r, pos) == radius * radius
  {
    var intersections := LookaheadIntersections(g, pos, radius, start, end);
    var r := PursuitTarget(g, intersections, end, current);
    assert r == current || r == intersections[0] || r == intersections[1];
    r
  }

  /**
   * The pursuit command: the drive output scaled by the heading error's
   * cosine and clamped to that fraction of the max voltage, the heading
   * output clamped, combined arcade-style with no voltage scaling.
   */
  function PursuitCommand(cfg: PathCfg, scale: real, pidOutput: real, headingOut: real): (c: DriveCmd)
    ensures c.left.Volts? && c.right.Volts?
    ensures cfg.maxVoltage >= 0.0 && cfg.headingMaxVoltage >= 0.0 ==>
      Abs(c.left.v + c.right.v) <= 2.0 * Abs(scale) * cfg.maxVoltage &&
      Abs(c.left.v - c.right.v) <= 2.0 * cfg.headingMaxVoltage
    ensures headingOut == 0.0 && cfg.headingMaxVoltage >= 0.0 ==> c.left == c.right
  {
    var drive := Clamp(pidOutput * scale, -Abs(scale) * cfg.maxVoltage, Abs(scale) * cfg.maxVoltage);
    var heading := Clamp(headingOut, -cfg.headingMaxVoltage, cfg.headingMaxVoltage);
    ArcadeCommand(drive, heading)
  }

  /**
   * One pursuit iteration on the segment start-end: pick the lookahead
   * point, add the distance moved since the last iteration, feed the
   * distance and heading errors to the controllers and drive. Within the
   * settle radius the heading correction is dropped; there is no
   * minimum-voltage floor.
   */
  function PursueStep(g: Geometry, cfg: PathCfg, start: Point, end: Point, t: Reading, pidOutput: real, pid2Output: real,
                      s: PathState, b: Book): (r: (PathState, Book))
    requires ValidGeometry(g)
    ensures r.0.segment == s.segment && r.0.prevPosition == t.position
    ensures r.0.target == PursuitTarget(g, LookaheadIntersections(g, t.position, cfg.lookahead, start, end), end, s.target)
    ensures r.0.target == s.target || OnSegment(r.0.target, start, end)
    ensures r.0.target != s.target ==> DistSq(r.0.target, t.position) == cfg.lookahead * cfg.lookahead
    ensures r.1.traveled == b.traveled + g.dist(t.position, s.prevPosition) >= b.traveled
    ensures r.1.pid.inputs == b.pid.inputs + [g.dist(t.position, r.0.target)]
    ensures |r.1.pid2.inputs| == |b.pid2.inputs| + 1 && b.pid2.inputs <= r.1.pid2.inputs
    ensures r.1.pid2.inputs[|b.pid2.inputs|]
         == ReduceNegative90To90(ReduceNegative180To180(g.bearing(t.position, r.0.target) - t.heading))
    ensures -90.0 <= r.1.pid2.inputs[|b.pid2.inputs|] < 90.0
    ensures r.1.pid.exits == b.pid.exits
    ensures r.1.drive == PursuitCommand(cfg, g.cosDeg(ReduceNegative180To180(g.bearing(t.position, r.0.target) - t.heading)),
                                        pidOutput, if g.dist(t.position, r.0.target) < cfg.settleError then 0.0 else pid2Output)
  {
    var pos := t.position;
    var target := LookaheadTarget(g, pos, cfg.lookahead, start, end, s.target);
    var driveError := g.dist(pos, target);
    var headingError := ReduceNegative180To180(g.bearing(pos, target) - t.heading);
    var headingOut := if driveError < cfg.settleError then 0.0 else pid2Output;
    (PathState(s.segment, target, pos),
     Book(b.traveled + g.dist(pos, s.prevPosition), Feed(b.pid, driveError),
          Feed(b.pid2, ReduceNegative90To90(headingError)),
          PursuitCommand(cfg, g.cosDeg(headingError), pidOutput, headingOut)))
  }

  /** PursueStep written out field by field, for the imperative loop to match. */
  lemma PursueStepFields(g: Geometry, cfg: PathCfg, start: Point, end: Point, t: Reading, pidOutput: real, pid2Output: real,
                         s: PathState, b: Book)
    requires ValidGeometry(g)
    ensures var target := LookaheadTarget(g, t.position, cfg.lookahead, start, end, s.target);
            var driveError := g.dist(t.position, target);
            var headingError := ReduceNegative180To180(g.bearing(t.position, target) - t.heading);
            var headingOut := if driveError < cfg.settleError then 0.0 else pid2Output;
            PursueStep(g, cfg, start, end, t, pidOutput, pid2Output, s, b) ==
              (PathState(s.segment, target, t.position),
               Book(b.traveled + g.dist(t.position, s.prevPosition), Feed(b.pid, driveError),
                    Feed(b.pid2, ReduceNegative90To90(headingError)),
                    PursuitCommand(cfg, g.cosDeg(headingError), pidOutput, headingOut)))
  {
  }

  /**
   * One test of follow_path's inner loop on the current segment: reading
   * the position either shows the segment's end within the lookahead
   * distance, and the next segment starts, or a pursuit iteration runs.
   */
  function PathStep(g: Geometry, cfg: PathCfg, path: seq<Point>, t: Tick, s: PathState, b: Book): (r: (PathState, Book))
    requires ValidGeometry(g)
    requires s.segment + 1 < |path|
    ensures g.dist(t.reading.position, path[s.segment + 1]) <= cfg.lookahead ==> r == (s.(segment := s.segment + 1), b)
    ensures g.dist(t.reading.position, path[s.segment + 1]) > cfg.lookahead ==>
      r == PursueStep(g, cfg, path[s.segment], path[s.segment + 1], t.reading, t.pidOutput, t.pid2Output, s, b)
    ensures r.0.segment == s.segment + 1 <==> g.dist(t.reading.position, path[s.segment + 1]) <= cfg.lookahead
    ensures r.0.segment == s.segment || r.0.segment == s.segment + 1
    ensures r.1.traveled >= b.traveled
  {
    var start, end := path[s.segment], path[s.segment + 1];
    if !(g.dist(t.reading.position, end) > cfg.lookahead) then (s.(segment := s.segment + 1), b)
    else PursueStep(g, cfg, start, end, t.reading, t.pidOutput, t.pid2Output, s, b)
  }

  /**
   * follow_path's loop from the current segment and tick on. The PID's
   * settle verdict is never read; the loop ends only when the last segment
   * is done.
   */
  function PathRun(g: Geometry, cfg: PathCfg, path: seq<Point>, ticks: seq<Tick>, i: nat, s: PathState, b: Book): Outcome<PathState>
    requires ValidGeometry(g)
    requires i <= |ticks|
    decreases |ticks| - i
  {
    if s.segment + 1 >= |path| then Outcome(PathDone, s, b)
    else if i == |ticks| then Outcome(StillRunning, s, b)
    else
      var (s', b') := PathStep(g, cfg, path, ticks[i], s, b);
      PathRun(g, cfg, path, ticks, i + 1, s', b')
  }

  /** follow_path ends exactly when its last segment is done, and takes the segments in order. */
  lemma {:induction false} PathRunExit(g: Geometry, cfg: PathCfg, path: seq<Point>, ticks: seq<Tick>, i: nat, s: PathState, b: Book)
    requires ValidGeometry(g)
    requires i <= |ticks|
    ensures var o := PathRun(g, cfg, path, ticks, i, s, b);
      && (o.exit == PathDone || o.exit == StillRunning)
      && (o.exit == PathDone <==> o.state.segment + 1 >= |path|)
      && s.segment <= o.state.segment
    decreases |ticks| - i
  {
    if s.segment + 1 < |path| && i < |ticks| {
      var (s', b') := PathStep(g, cfg, path, ticks[i], s, b);
      assert s.segment <= s'.segment;
      PathRunExit(g, cfg, path, ticks, i + 1, s', b');
    }
  }

  /** A lookahead target on the path stays on the path. */
  lemma {:induction false} PathRunStaysOnPath(g: Geometry, cfg: PathCfg, path: seq<Point>, ticks: seq<Tick>, i: nat, s: PathState, b: Book)
    requires ValidGeometry(g)
    requires i <= |ticks|
    requires OnPath(s.target, path)
    ensures OnPath(PathRun(g, cfg, path, ticks, i, s, b).state.target, path)
    decreases |ticks| - i
  {
    if s.segment + 1 < |path| && i < |ticks| {
      var (s', b') := PathStep(g, cfg, path, ticks[i], s, b);
      if s'.target != s.target {
        assert OnSegment(s'.target, path[s.segment], path[s.segment + 1]);
      }
      PathRunStaysOnPath(g, cfg, path, ticks, i + 1, s', b');
    }
  }

  /**
   * Over follow_path the distance traveled never shrinks; both controllers
   * receive one error per pursuit iteration, the heading errors lie in
   * [-90, 90), and the controller's exit conditions are never changed.
   */
  lemma {:induction false} PathRunInputs(g: Geometry, cfg: PathCfg, path: seq<Point>, ticks: seq<Tick>, i: nat, s: PathState, b: Book)
    requires ValidGeometry(g)
    requires i <= |ticks|
    ensures var o := PathRun(g, cfg, path, ticks, i, s, b);
      && o.book.traveled >= b.traveled
      && b.pid.inputs <= o.book.pid.inputs && b.pid2.inputs <= o.book.pid2.inputs
      && |o.book.pid.inputs| - |b.pid.inputs| == |o.book.pid2.inputs| - |b.pid2.inputs| <= |ticks| - i
      && (forall k :: |b.pid2.inputs| <= k < |o.book.pid2.inputs| ==> -90.0 <= o.book.pid2.inputs[k] < 90.0)
      && o.book.pid.exits == b.pid.exits
    decreases |ticks| - i
  {
    if s.segment + 1 < |path| && i < |ticks| {
      var (s', b') := PathStep(g, cfg, path, ticks[i], s, b);
      PathRunInputs(g, cfg, path, ticks, i + 1, s', b');
    }
  }

  /** Two traces that agree on everything but the settle verdicts. */
  ghost predicate SameButSettled(t1: seq<Tick>, t2: seq<Tick>) {
    |t1| == |t2| &&
    forall j :: 0 <= j < |t1| ==>
      t1[j].reading == t2[j].reading && t1[j].pidOutput == t2[j].pidOutput && t1[j].pid2Output == t2[j].pid2Output
  }

  /** follow_path never consults the PID's settle verdict. */
  lemma {:induction false} PathRunIgnoresSettled(g: Geometry, cfg: PathCfg, path: seq<Point>, t1: seq<Tick>, t2: seq<Tick>,
                                                 i: nat, s: PathState, b: Book)
    requires ValidGeometry(g)
    requires i <= |t1| && SameButSettled(t1, t2)
    ensures PathRun(g, cfg, path, t1, i, s, b) == PathRun(g, cfg, path, t2, i, s, b)
    decreases |t1| - i
  {
    if s.segment + 1 < |path| && i < |t1| {
      assert t1[i].reading == t2[i].reading && t1[i].pidOutput == t2[i].pidOutput && t1[i].pid2Output == t2[i].pid2Output;
      assert PathStep(g, cfg, path, t1[i], s, b) == PathStep(g, cfg, path, t2[i], s, b);
      var (s', b') := PathStep(g, cfg, path, t1[i], s, b);
      PathRunIgnoresSettled(g, cfg, path, t1, t2, i + 1, s', b');
    }
  }

  /** The robot's own position, prepended to the path, lies on the path's first segment. */
  lemma StartIsOnPath(start: Point, path: seq<Point>)
    requires |path| >= 1
    ensures OnPath(start, [start] + path)
  {
    var full := [start] + path;
    assert full[0] == start && full[1] == path[0];
    assert Lerp(start, path[0], 0.0) == start;
  }

  /** A point with each coordinate negated when that axis is mirrored. */
  function MirrorPoint(p: Point, mirrorX: bool, mirrorY: bool): Point {
    Point(MirrorX(p.x, mirrorX), MirrorY(p.y, mirrorY))
  }

  /** A path with every waypoint mirrored, in the same order. */
  function MirroredPath(path: seq<Point>, mirrorX: bool, mirrorY: bool): (r: seq<Point>)
    ensures |r| == |path|
    ensures forall k :: 0 <= k < |path| ==> r[k].x == (if mirrorX then -path[k].x else path[k].x)
    ensures forall k :: 0 <= k < |path| ==> r[k].y == (if mirrorY then -path[k].y else path[k].y)
  {
    seq(|path|, k requires 0 <= k < |path| => MirrorPoint(path[k], mirrorX, mirrorY))
  }

  /** Mirroring a path twice gives it back. */
  lemma MirroredPathInvolution(path: seq<Point>, mirrorX: bool, mirrorY: bool)
    ensures MirroredPath(MirroredPath(path, mirrorX, mirrorY), mirrorX, mirrorY) == path
  {
  }
}
