/**
 * The Chassis object and its motion entry points (include/654X_Drive/chassis.h).
 *
 * An entry point records its targets, constructs the PID controllers, marks
 * the motion running with nothing traveled, and runs its control loop; when
 * the loop ends the motion is marked finished and, unless a minimum voltage
 * asks the robot to keep moving into the next motion, the drive holds. The
 * loop that runs in a task in the source runs here synchronously over a
 * trace of ticks; the reading `start` stands for the chassis state both at
 * the call and when the task starts.
 */
module ChassisModel {
  import opened DriveUtil
  import opened Wrappers
  import opened Motion

  datatype AngleTurnParams = AngleTurnParams(turnDirection: Direction, minVoltage: real, maxVoltage: real,
                                             settleError: real, settleTime: real, timeout: real)

  datatype PointTurnParams = PointTurnParams(turnDirection: Direction, angleOffset: real, minVoltage: real, maxVoltage: real,
                                             settleError: real, settleTime: real, timeout: real)

  datatype DistanceParams = DistanceParams(heading: real, minVoltage: real, maxVoltage: real, headingMaxVoltage: real,
                                           settleError: real, settleTime: real, timeout: real)

  datatype PointParams = PointParams(minVoltage: real, maxVoltage: real, headingMaxVoltage: real,
                                     settleError: real, settleTime: real, timeout: real)

  datatype PoseParams = PoseParams(lead: real, setback: real, minVoltage: real, maxVoltage: real, headingMaxVoltage: real,
                                   settleError: real, settleTime: real, timeout: real)

  datatype PathParams = PathParams(lookahead: real, minVoltage: real, maxVoltage: real, headingMaxVoltage: real,
                                   settleError: real, settleTime: real, timeout: real)

  /** The drive command left after a loop: hold on exit unless a minimum voltage chains the motion. */
  function AfterExit(exit: Exit, minVoltage: real, drive: DriveCmd): (c: DriveCmd)
    ensures exit != StillRunning && minVoltage == 0.0 ==> c == DriveCmd(Hold, Hold)
    ensures exit == StillRunning || minVoltage != 0.0 ==> c == drive
  {
    if exit != StillRunning && minVoltage == 0.0 then DriveCmd(Hold, Hold) else drive
  }

  /** Negates every x when x is mirrored, then every y when y is mirrored, in place. */
  method MirrorPathInPlace(a: array<Point>, mirrorX: bool, mirrorY: bool)
    modifies a
    ensures a[..] == MirroredPath(old(a[..]), mirrorX, mirrorY)
  {
    if mirrorX {
      for k := 0 to a.Length
        invariant forall j :: 0 <= j < k ==> a[j] == Point(-old(a[j]).x, old(a[j]).y)
        invariant forall j :: k <= j < a.Length ==> a[j] == old(a[j])
      {
        a[k] := a[k].(x := -a[k].x);
      }
    }
    if mirrorY {
      for k := 0 to a.Length
        invariant forall j :: 0 <= j < k ==> a[j] == Point(MirrorX(old(a[j]).x, mirrorX), -old(a[j]).y)
        invariant forall j :: k <= j < a.Length ==> a[j] == Point(MirrorX(old(a[j]).x, mirrorX), old(a[j]).y)
      {
        a[k] := a[k].(y := -a[k].y);
      }
    }
  }

  class Chassis {
    var driveGains: Gains
    var headingGains: Gains
    var turnGains: Gains
    var swingGains: Gains

    var anglesMirrored: bool
    var xMirrored: bool
    var yMirrored: bool

    var motionRunning: bool
    var distanceTraveled: real

    var desiredDistance: real
    var desiredHeading: real
    var desiredAngle: real
    var desiredX: real
    var desiredY: real
    var desiredAngleOffset: real
    var desiredPath: seq<Point>

    var pid: Pid
    var pid2: Pid
    var drive: DriveCmd

    constructor (driveGains: Gains, headingGains: Gains, turnGains: Gains, swingGains: Gains)
      ensures this.driveGains == driveGains && this.headingGains == headingGains
      ensures this.turnGains == turnGains && this.swingGains == swingGains
      ensures !anglesMirrored && !xMirrored && !yMirrored
      ensures !motionRunning && distanceTraveled == 0.0 && desiredPath == []
    {
      this.driveGains, this.headingGains := driveGains, headingGains;
      this.turnGains, this.swingGains := turnGains, swingGains;
      anglesMirrored, xMirrored, yMirrored := false, false, false;
      motionRunning, distanceTraveled := false, 0.0;
      desiredDistance, desiredHeading, desiredAngle := 0.0, 0.0, 0.0;
      desiredX, desiredY, desiredAngleOffset := 0.0, 0.0, 0.0;
      desiredPath := [];
      pid := Pid(driveGains, 0.0, None, []);
      pid2 := Pid(headingGains, 0.0, None, []);
      drive := DriveCmd(Hold, Hold);
    }

    /** The bookkeeping the loops change, as one value. */
    function Bookkeeping(): Book
      reads this
    {
      Book(distanceTraveled, pid, pid2, drive)
    }

    /** Every entry marks the motion running with nothing traveled before its loop starts. */
    method StartMotion()
      modifies this`motionRunning, this`distanceTraveled
      ensures motionRunning && distanceTraveled == 0.0
    {
      motionRunning := true;
      distanceTraveled := 0.0;
    }

    /** On loop exit the motion is finished and the drive holds unless a minimum voltage is set. */
    method FinishMotion(minVoltage: real)
      modifies this`motionRunning, this`drive
      ensures !motionRunning
      ensures drive == AfterExit(Settled, minVoltage, old(drive))
    {
      motionRunning := false;
      if minVoltage == 0.0 {
        drive := DriveCmd(Hold, Hold);
      }
    }

    /** Ends the motion if its loop ended; a loop still running leaves it running. */
    method EndMotion(exit: Exit, minVoltage: real)
      modifies this`motionRunning, this`drive
      ensures motionRunning == (if exit == StillRunning then old(motionRunning) else false)
      ensures drive == AfterExit(exit, minVoltage, old(drive))
    {
      if exit != StillRunning {
        FinishMotion(minVoltage);
      }
    }

    // ---------------------------------------------------------- turn loops

    /**
     * The body of one turn iteration: compute the raw and followed errors
     * and, unless the chaining sign flip ends the loop, update the distance
     * traveled, the PID and the drive; returns whether the loop breaks and
     * the new locals.
     */
    method TurnIteration(cfg: TurnCfg, t: Tick, crossed: bool, prevError: real, prevRawError: real)
      returns (flip: bool, crossed': bool, error': real, rawError': real)
      modifies this`distanceTraveled, this`pid, this`drive
      ensures flip ==> TurnStep(cfg, t, TurnState(crossed, prevError, prevRawError), old(Bookkeeping())) == Stop(SignFlip)
      ensures flip ==> Bookkeeping() == old(Bookkeeping())
      ensures !flip ==> (TurnStep(cfg, t, TurnState(crossed, prevError, prevRawError), old(Bookkeeping()))
                     == Next(TurnState(crossed', error', rawError'), Bookkeeping()))
    {
      var heading := t.reading.heading;
      rawError' := AngleError(cfg.angle - heading + cfg.offset, Fastest);
      crossed' := crossed;
      if Sign(rawError') != Sign(prevRawError) {
        crossed' := true;
      }
      error' := if crossed' then rawError' else AngleError(cfg.angle - heading + cfg.offset, cfg.dir);
      flip := cfg.minVoltage != 0.0 && Sign(error') != Sign(prevError);
      if flip {
        return;
      }
      distanceTraveled := distanceTraveled + Abs(error' - prevError);
      pid := Feed(pid, error');
      var output := LimitedOutput(t.pidOutput, cfg.minVoltage, cfg.maxVoltage);
      drive := TurnCommand(cfg.kind, output);
    }

    /** The turn loop shared by the turn and swing motions. */
    method TurnLoop(cfg: TurnCfg, start: Reading, ticks: seq<Tick>) returns (exit: Exit)
      modifies this`distanceTraveled, this`pid, this`drive
      ensures var o := TurnRun(cfg, ticks, 0, StartTurn(cfg, start.heading), old(Bookkeeping()));
              exit == o.exit && Bookkeeping() == o.book
    {
      ghost var goal := TurnRun(cfg, ticks, 0, StartTurn(cfg, start.heading), Bookkeeping());
      var crossed := false;
      var prevError := AngleError(cfg.angle - start.heading + cfg.offset, cfg.dir);
      var prevRawError := AngleError(cfg.angle - start.heading + cfg.offset, Fastest);
      var i := 0;
      while i < |ticks| && !ticks[i].settled
        invariant i <= |ticks|
        invariant TurnRun(cfg, ticks, i, TurnState(crossed, prevError, prevRawError), Bookkeeping()) == goal
        decreases |ticks| - i
      {
        var flip;
        flip, crossed, prevError, prevRawError := TurnIteration(cfg, ticks[i], crossed, prevError, prevRawError);
        if flip {
          return SignFlip;
        }
        i := i + 1;
      }
      exit := if i == |ticks| then StillRunning else Settled;
    }

    /** A turn or swing motion after its entry has recorded its targets: seed, start, loop, exit. */
    method TurnMotion(cfg: TurnCfg, seed: Pid, start: Reading, ticks: seq<Tick>) returns (exit: Exit)
      modifies this`motionRunning, this`distanceTraveled, this`pid, this`drive
      ensures var o := TurnRun(cfg, ticks, 0, StartTurn(cfg, start.heading), Book(0.0, seed, old(pid2), old(drive)));
              exit == o.exit && distanceTraveled == o.book.traveled && pid == o.book.pid &&
              motionRunning == (exit == StillRunning) && drive == AfterExit(exit, cfg.minVoltage, o.book.drive)
    {
      pid := seed;
      StartMotion();
      exit := TurnLoop(cfg, start, ticks);
      EndMotion(exit, cfg.minVoltage);
    }

    /**
     * turn_to_angle: the loop aims at the mirrored angle, while the PID is
     * seeded with the error towards the angle as given.
     */
    method TurnToAngle(angle: real, p: AngleTurnParams, start: Reading, ticks: seq<Tick>) returns (exit: Exit)
      modifies this`desiredAngle, this`motionRunning, this`distanceTraveled, this`pid, this`drive
      ensures desiredAngle == MirrorAngle(angle, anglesMirrored)
      ensures var dir := MirrorDirection(p.turnDirection, anglesMirrored);
              var cfg := TurnCfg(desiredAngle, 0.0, dir, p.minVoltage, p.maxVoltage, BothSides);
              var seed := Pid(turnGains, AngleError(angle - start.heading, dir),
                              Some(ExitConditions(p.settleError, p.settleTime, p.timeout)), []);
              var o := TurnRun(cfg, ticks, 0, StartTurn(cfg, start.heading), Book(0.0, seed, old(pid2), old(drive)));
              exit == o.exit && distanceTraveled == o.book.traveled && pid == o.book.pid &&
              motionRunning == (exit == StillRunning) && drive == AfterExit(exit, p.minVoltage, o.book.drive)
    {
      desiredAngle := MirrorAngle(angle, anglesMirrored);
      var dir := MirrorDirection(p.turnDirection, anglesMirrored);
      var seed := Pid(turnGains, AngleError(angle - start.heading, dir),
                      Some(ExitConditions(p.settleError, p.settleTime, p.timeout)), []);
      exit := TurnMotion(TurnCfg(desiredAngle, 0.0, dir, p.minVoltage, p.maxVoltage, BothSides), seed, start, ticks);
    }

    /** left_swing_to_angle and right_swing_to_angle: one side spins, the other holds. */
    method SwingToAngle(left: bool, angle: real, p: AngleTurnParams, start: Reading, ticks: seq<Tick>) returns (exit: Exit)
      modifies this`desiredAngle, this`motionRunning, this`distanceTraveled, this`pid, this`drive
      ensures desiredAngle == MirrorAngle(angle, anglesMirrored)
      ensures var dir := MirrorDirection(p.turnDirection, anglesMirrored);
              var cfg := TurnCfg(desiredAngle, 0.0, dir, p.minVoltage, p.maxVoltage, if left then LeftSwing else RightSwing);
              var seed := Pid(swingGains, AngleError(angle - start.heading, dir),
                              Some(ExitConditions(p.settleError, p.settleTime, p.timeout)), []);
              var o := TurnRun(cfg, ticks, 0, StartTurn(cfg, start.heading), Book(0.0, seed, old(pid2), old(drive)));
              exit == o.exit && distanceTraveled == o.book.traveled && pid == o.book.pid &&
              motionRunning == (exit == StillRunning) && drive == AfterExit(exit, p.minVoltage, o.book.drive)
    {
      desiredAngle := MirrorAngle(angle, anglesMirrored);
      var dir := MirrorDirection(p.turnDirection, anglesMirrored);
      var seed := Pid(swingGains, AngleError(angle - start.heading, dir),
                      Some(ExitConditions(p.settleError, p.settleTime, p.timeout)), []);
      var kind := if left then LeftSwing else RightSwing;
      exit := TurnMotion(TurnCfg(desiredAngle, 0.0, dir, p.minVoltage, p.maxVoltage, kind), seed, start, ticks);
    }

    /**
     * turn_to_point and the swing-to-point variants: the target is mirrored,
     * and the bearing to it is taken once, from the reading at the start; the
     * loop aims at that bearing plus the offset.
     */
    method TurnToPoint(kind: TurnKind, g: Geometry, x: real, y: real, p: PointTurnParams, start: Reading, ticks: seq<Tick>)
      returns (exit: Exit, ghost cfg: TurnCfg, ghost seed: Pid)
      modifies this`desiredX, this`desiredY, this`desiredAngleOffset, this`motionRunning, this`distanceTraveled,
               this`pid, this`drive
      ensures desiredX == MirrorX(x, xMirrored) && desiredY == MirrorY(y, yMirrored) && desiredAngleOffset == p.angleOffset
      ensures cfg == TurnCfg(g.bearing(start.position, Point(desiredX, desiredY)), p.angleOffset,
                             MirrorDirection(p.turnDirection, anglesMirrored), p.minVoltage, p.maxVoltage, kind)
      ensures seed == Pid(if kind == BothSides then turnGains else swingGains,
                          AngleError(cfg.angle - start.heading + p.angleOffset, cfg.dir),
                          Some(ExitConditions(p.settleError, p.settleTime, p.timeout)), [])
      ensures var o := TurnRun(cfg, ticks, 0, StartTurn(cfg, start.heading), Book(0.0, seed, old(pid2), old(drive)));
              exit == o.exit && distanceTraveled == o.book.traveled && pid == o.book.pid &&
              motionRunning == (exit == StillRunning) && drive == AfterExit(exit, cfg.minVoltage, o.book.drive)
    {
      var loopCfg, loopSeed := BeginTurnToPoint(kind, g, x, y, p, start);
      cfg, seed := loopCfg, loopSeed;
      exit := TurnMotion(loopCfg, loopSeed, start, ticks);
    }

    /** The set-up of turn_to_point: the mirrored target and the bearing to it, taken once. */
    method BeginTurnToPoint(kind: TurnKind, g: Geometry, x: real, y: real, p: PointTurnParams, start: Reading)
      returns (cfg: TurnCfg, seed: Pid)
      modifies this`desiredX, this`desiredY, this`desiredAngleOffset
      ensures desiredX == MirrorX(x, xMirrored) && desiredY == MirrorY(y, yMirrored) && desiredAngleOffset == p.angleOffset
      ensures cfg == TurnCfg(g.bearing(start.position, Point(desiredX, desiredY)), p.angleOffset,
                             MirrorDirection(p.turnDirection, anglesMirrored), p.minVoltage, p.maxVoltage, kind)
      ensures seed == Pid(if kind == BothSides then turnGains else swingGains,
                          AngleError(cfg.angle - start.heading + p.angleOffset, cfg.dir),
                          Some(ExitConditions(p.settleError, p.settleTime, p.timeout)), [])
    {
      desiredX := MirrorX(x, xMirrored);
      desiredY := MirrorY(y, yMirrored);
      desiredAngleOffset := p.angleOffset;
      var dir := MirrorDirection(p.turnDirection, anglesMirrored);
      var startAngle := g.bearing(start.position, Point(desiredX, desiredY));
      cfg := TurnCfg(startAngle, p.angleOffset, dir, p.minVoltage, p.maxVoltage, kind);
      seed := Pid(if kind == BothSides then turnGains else swingGains,
                  AngleError(startAngle - start.heading + p.angleOffset, dir),
                  Some(ExitConditions(p.settleError, p.settleTime, p.timeout)), []);
    }

    // ------------------------------------------------------ drive distance

    /**
     * The body of one drive_distance iteration: update the distance
     * traveled, feed both controllers and drive arcade-style; returns the
     * new drive error.
     */
    method DistanceIteration(cfg: DistanceCfg, t: Tick, prevDriveError: real) returns (driveError: real)
      modifies this`distanceTraveled, this`pid, this`pid2, this`drive
      ensures DistanceStep(cfg, t, prevDriveError, old(Bookkeeping())) == Next(driveError, Bookkeeping())
    {
      var r := t.reading;
      driveError := cfg.distance + cfg.start - r.forward;
      distanceTraveled := distanceTraveled + Abs(driveError - prevDriveError);
      var headingError := ReduceNegative180To180(cfg.heading - r.heading);
      pid := Feed(pid, driveError);
      pid2 := Feed(pid2, headingError);
      var driveOutput := Clamp(t.pidOutput, -cfg.maxVoltage, cfg.maxVoltage);
      var headingOutput := Clamp(t.pid2Output, -cfg.headingMaxVoltage, cfg.headingMaxVoltage);
      driveOutput := ClampMinVoltage(driveOutput, cfg.minVoltage);
      drive := DriveCmd(Volts(driveOutput + headingOutput), Volts(driveOutput - headingOutput));
    }

    method DistanceLoop(cfg: DistanceCfg, ticks: seq<Tick>) returns (exit: Exit)
      modifies this`distanceTraveled, this`pid, this`pid2, this`drive
      ensures var o := DistanceRun(cfg, ticks, 0, DistanceError(cfg, cfg.start), old(Bookkeeping()));
              exit == o.exit && Bookkeeping() == o.book
    {
      ghost var goal := DistanceRun(cfg, ticks, 0, DistanceError(cfg, cfg.start), Bookkeeping());
      var prevDriveError := cfg.distance + cfg.start - cfg.start;
      var i := 0;
      while i < |ticks| && !ticks[i].settled
        invariant i <= |ticks|
        invariant DistanceRun(cfg, ticks, i, prevDriveError, Bookkeeping()) == goal
        decreases |ticks| - i
      {
        prevDriveError := DistanceIteration(cfg, ticks[i], prevDriveError);
        i := i + 1;
      }
      exit := if i == |ticks| then StillRunning else Settled;
    }

    /** drive_distance: drive straight by `distance` on the forward tracker, holding a heading. */
    method DriveDistance(distance: real, p: DistanceParams, start: Reading, ticks: seq<Tick>) returns (exit: Exit)
      modifies this`desiredDistance, this`desiredHeading, this`motionRunning, this`distanceTraveled,
               this`pid, this`pid2, this`drive
      ensures desiredDistance == distance && desiredHeading == p.heading
      ensures var cfg := DistanceCfg(distance, p.heading, start.forward, p.minVoltage, p.maxVoltage, p.headingMaxVoltage);
              var seed := Pid(driveGains, distance, Some(ExitConditions(p.settleError, p.settleTime, p.timeout)), []);
              var seed2 := Pid(headingGains, ReduceNegative180To180(p.heading - start.heading), None, []);
              var o := DistanceRun(cfg, ticks, 0, distance, Book(0.0, seed, seed2, old(drive)));
              exit == o.exit && distanceTraveled == o.book.traveled && pid == o.book.pid && pid2 == o.book.pid2 &&
              motionRunning == (exit == StillRunning) && drive == AfterExit(exit, p.minVoltage, o.book.drive)
    {
      desiredDistance := distance;
      desiredHeading := p.heading;
      pid := Pid(driveGains, distance, Some(ExitConditions(p.settleError, p.settleTime, p.timeout)), []);
      pid2 := Pid(headingGains, ReduceNegative180To180(p.heading - start.heading), None, []);
      StartMotion();
      exit := DistanceLoop(DistanceCfg(distance, p.heading, start.forward, p.minVoltage, p.maxVoltage, p.headingMaxVoltage), ticks);
      EndMotion(exit, p.minVoltage);
    }

    // ------------------------------------------------------ drive to point

    /**
     * The body of one drive_to_point iteration past the settle-line test:
     * update the distance traveled, feed both controllers and steer; returns
     * the new drive error.
     */
    method PointIteration(g: Geometry, cfg: PointCfg, t: Tick, ghost prevLineSettled: bool, prevDriveError: real)
      returns (driveError: real)
      requires !(g.lineSettled(cfg.target, cfg.heading, t.reading.position) && !prevLineSettled)
      modifies this`distanceTraveled, this`pid, this`pid2, this`drive
      ensures PointStep(g, cfg, t, PointState(prevLineSettled, prevDriveError), old(Bookkeeping()))
           == Next(PointState(g.lineSettled(cfg.target, cfg.heading, t.reading.position), driveError), Bookkeeping())
    {
      var pos := t.reading.position;
      driveError := g.dist(cfg.target, pos);
      distanceTraveled := distanceTraveled + Abs(driveError - prevDriveError);
      var headingError := ReduceNegative180To180(g.bearing(pos, cfg.target) - t.reading.heading);
      pid := Feed(pid, driveError);
      var scale := g.cosDeg(headingError);
      pid2 := Feed(pid2, ReduceNegative90To90(headingError));
      var headingOutput := if driveError < cfg.settleError then 0.0 else t.pid2Output;
      drive := SteerCommand(scale, t.pidOutput, headingOutput, cfg.minVoltage, cfg.maxVoltage, cfg.headingMaxVoltage);
    }

    method PointLoop(g: Geometry, cfg: PointCfg, start: Reading, ticks: seq<Tick>) returns (exit: Exit)
      modifies this`distanceTraveled, this`pid, this`pid2, this`drive
      ensures var s := PointState(g.lineSettled(cfg.target, cfg.heading, start.position), g.dist(cfg.target, start.position));
              var o := PointRun(g, cfg, ticks, 0, s, old(Bookkeeping()));
              exit == o.exit && Bookkeeping() == o.book
    {
      var prevLineSettled := g.lineSettled(cfg.target, cfg.heading, start.position);
      var prevDriveError := g.dist(cfg.target, start.position);
      ghost var goal := PointRun(g, cfg, ticks, 0, PointState(prevLineSettled, prevDriveError), Bookkeeping());
      var i := 0;
      while i < |ticks| && !ticks[i].settled
        invariant i <= |ticks|
        invariant PointRun(g, cfg, ticks, i, PointState(prevLineSettled, prevDriveError), Bookkeeping()) == goal
        decreases |ticks| - i
      {
        var lineSettled := g.lineSettled(cfg.target, cfg.heading, ticks[i].reading.position);
        if lineSettled && !prevLineSettled {
          return LineCrossed;
        }
        prevDriveError := PointIteration(g, cfg, ticks[i], prevLineSettled, prevDriveError);
        prevLineSettled := lineSettled;
        i := i + 1;
      }
      exit := if i == |ticks| then StillRunning else Settled;
    }

    /** The set-up of drive_to_point: the mirrored target, the bearing to it and both controllers' seeds. */
    method BeginPoint(g: Geometry, x: real, y: real, p: PointParams, start: Reading) returns (cfg: PointCfg)
      modifies this`desiredX, this`desiredY, this`desiredHeading, this`motionRunning, this`distanceTraveled,
               this`pid, this`pid2
      ensures desiredX == MirrorX(x, xMirrored) && desiredY == MirrorY(y, yMirrored)
      ensures desiredHeading == g.bearing(start.position, Point(desiredX, desiredY))
      ensures cfg == PointCfg(Point(desiredX, desiredY), desiredHeading, p.minVoltage, p.maxVoltage,
                              p.headingMaxVoltage, p.settleError)
      ensures pid == Pid(driveGains, g.dist(cfg.target, start.position),
                         Some(ExitConditions(p.settleError, p.settleTime, p.timeout)), [])
      ensures pid2 == Pid(headingGains, desiredHeading - start.heading, None, [])
      ensures motionRunning && distanceTraveled == 0.0
    {
      desiredX := MirrorX(x, xMirrored);
      desiredY := MirrorY(y, yMirrored);
      var target := Point(desiredX, desiredY);
      pid := Pid(driveGains, g.dist(target, start.position), Some(ExitConditions(p.settleError, p.settleTime, p.timeout)), []);
      desiredHeading := g.bearing(start.position, target);
      pid2 := Pid(headingGains, desiredHeading - start.heading, None, []);
      StartMotion();
      cfg := PointCfg(target, desiredHeading, p.minVoltage, p.maxVoltage, p.headingMaxVoltage, p.settleError);
    }

    /**
     * drive_to_point: drive to the mirrored target, steering towards it.
     * `cfg` and `seeded` name the loop's constants and the bookkeeping the
     * loop starts from.
     */
    method DriveToPoint(g: Geometry, x: real, y: real, p: PointParams, start: Reading, ticks: seq<Tick>)
      returns (exit: Exit, ghost cfg: PointCfg, ghost seeded: Book)
      modifies this`desiredX, this`desiredY, this`desiredHeading, this`motionRunning, this`distanceTraveled,
               this`pid, this`pid2, this`drive
      ensures desiredX == MirrorX(x, xMirrored) && desiredY == MirrorY(y, yMirrored)
      ensures desiredHeading == g.bearing(start.position, Point(desiredX, desiredY))
      ensures cfg == PointCfg(Point(desiredX, desiredY), desiredHeading, p.minVoltage, p.maxVoltage,
                              p.headingMaxVoltage, p.settleError)
      ensures seeded == Book(0.0, Pid(driveGains, g.dist(cfg.target, start.position),
                                      Some(ExitConditions(p.settleError, p.settleTime, p.timeout)), []),
                             Pid(headingGains, desiredHeading - start.heading, None, []), old(drive))
      ensures var s := PointState(g.lineSettled(cfg.target, cfg.heading, start.position), g.dist(cfg.target, start.position));
              var o := PointRun(g, cfg, ticks, 0, s, seeded);
              exit == o.exit && distanceTraveled == o.book.traveled && pid == o.book.pid && pid2 == o.book.pid2 &&
              motionRunning == (exit == StillRunning) && drive == AfterExit(exit, p.minVoltage, o.book.drive)
    {
      var loopCfg := BeginPoint(g, x, y, p, start);
      cfg, seeded := loopCfg, Bookkeeping();
      exit := PointLoop(g, loopCfg, start, ticks);
      EndMotion(exit, p.minVoltage);
    }

    // ------------------------------------------------------- drive to pose

    /**
     * The body of one drive_to_pose iteration past the settle-line test:
     * update the crossing flag, the distance traveled, both controllers and
     * the drive; returns the new crossing flag and previous drive error.
     */
    method PoseIteration(g: Geometry, cfg: PoseCfg, t: Tick, ghost prevLineSettled: bool,
                         crossed: bool, prevDriveError: real) returns (crossed': bool, driveError': real)
      requires !(g.lineSettled(cfg.target, cfg.angle, t.reading.position) && !prevLineSettled)
      modifies this`distanceTraveled, this`pid, this`pid2, this`drive
      ensures PoseStep(g, cfg, t, PoseState(prevLineSettled, crossed, prevDriveError), old(Bookkeeping()))
           == Next(PoseState(g.lineSettled(cfg.target, cfg.angle, t.reading.position), crossed', driveError'), Bookkeeping())
    {
      var r := t.reading;
      crossed' := crossed;
      if CenterSide(g, cfg, r.position) != cfg.startSide {
        crossed' := true;
      }
      var targetDistance := g.dist(cfg.target, r.position);
      var carrot := Carrot(g, cfg, targetDistance);
      var driveError := g.dist(carrot, r.position);
      distanceTraveled := distanceTraveled + Abs(driveError - prevDriveError);
      driveError' := driveError;
      var headingError := ReduceNegative180To180(g.bearing(r.position, carrot) - r.heading);
      if driveError < cfg.settleError || crossed' || driveError < cfg.setback {
        headingError := ReduceNegative180To180(cfg.angle - r.heading);
        driveError := targetDistance;
      }
      assert (driveError, headingError) == PoseErrors(g, cfg, crossed', r);
      pid := Feed(pid, driveError);
      var scale := g.cosDeg(headingError);
      pid2 := Feed(pid2, ReduceNegative90To90(headingError));
      drive := SteerCommand(scale, t.pidOutput, t.pid2Output, cfg.minVoltage, cfg.maxVoltage, cfg.headingMaxVoltage);
    }

    method PoseLoop(g: Geometry, cfg: PoseCfg, start: Reading, ticks: seq<Tick>) returns (exit: Exit)
      modifies this`distanceTraveled, this`pid, this`pid2, this`drive
      ensures var o := PoseRun(g, cfg, ticks, 0, StartPose(g, cfg, start.position), old(Bookkeeping()));
              exit == o.exit && Bookkeeping() == o.book
    {
      var prevLineSettled := g.lineSettled(cfg.target, cfg.angle, start.position);
      var crossedCenterLine := false;
      var prevDriveError := g.dist(Carrot(g, cfg, g.dist(cfg.target, start.position)), start.position);
      ghost var goal := PoseRun(g, cfg, ticks, 0, StartPose(g, cfg, start.position), Bookkeeping());
      var i := 0;
      while i < |ticks| && !ticks[i].settled
        invariant i <= |ticks|
        invariant PoseRun(g, cfg, ticks, i, PoseState(prevLineSettled, crossedCenterLine, prevDriveError), Bookkeeping()) == goal
        decreases |ticks| - i
      {
        var lineSettled := g.lineSettled(cfg.target, cfg.angle, ticks[i].reading.position);
        if lineSettled && !prevLineSettled {
          return LineCrossed;
        }
        crossedCenterLine, prevDriveError := PoseIteration(g, cfg, ticks[i], prevLineSettled, crossedCenterLine, prevDriveError);
        prevLineSettled := lineSettled;
        i := i + 1;
      }
      exit := if i == |ticks| then StillRunning else Settled;
    }

    /**
     * drive_to_pose before its task starts: mirror the target pose, seed both
     * controllers from the current position and start the motion; returns
     * the constants the loop works with.
     */
    method BeginPose(g: Geometry, x: real, y: real, angle: real, p: PoseParams, start: Reading) returns (cfg: PoseCfg)
      modifies this`desiredX, this`desiredY, this`desiredAngle, this`motionRunning, this`distanceTraveled,
               this`pid, this`pid2
      ensures desiredX == MirrorX(x, xMirrored) && desiredY == MirrorY(y, yMirrored)
      ensures desiredAngle == MirrorAngle(angle, anglesMirrored)
      ensures var target := Point(desiredX, desiredY);
              && cfg == PoseCfg(target, desiredAngle, p.lead, p.setback, p.minVoltage, p.maxVoltage, p.headingMaxVoltage,
                                p.settleError, g.lineSettled(target, desiredAngle + 90.0, start.position))
              && pid == Pid(driveGains, g.dist(target, start.position),
                            Some(ExitConditions(p.settleError, p.settleTime, p.timeout)), [])
              && pid2 == Pid(headingGains, g.bearing(start.position, target) - start.heading, None, [])
      ensures motionRunning && distanceTraveled == 0.0
    {
      desiredX := MirrorX(x, xMirrored);
      desiredY := MirrorY(y, yMirrored);
      desiredAngle := MirrorAngle(angle, anglesMirrored);
      var target := Point(desiredX, desiredY);
      pid := Pid(driveGains, g.dist(target, start.position), Some(ExitConditions(p.settleError, p.settleTime, p.timeout)), []);
      pid2 := Pid(headingGains, g.bearing(start.position, target) - start.heading, None, []);
      StartMotion();
      var side := g.lineSettled(target, desiredAngle + 90.0, start.position);
      cfg := PoseCfg(target, desiredAngle, p.lead, p.setback, p.minVoltage, p.maxVoltage, p.headingMaxVoltage,
                     p.settleError, side);
    }

    /**
     * drive_to_pose: boomerang to the mirrored pose by chasing a carrot point.
     * `cfg` and `seeded` name the loop's constants and the bookkeeping the
     * loop starts from.
     */
    method DriveToPose(g: Geometry, x: real, y: real, angle: real, p: PoseParams, start: Reading, ticks: seq<Tick>)
      returns (exit: Exit, ghost cfg: PoseCfg, ghost seeded: Book)
      modifies this`desiredX, this`desiredY, this`desiredAngle, this`motionRunning, this`distanceTraveled,
               this`pid, this`pid2, this`drive
      ensures desiredX == MirrorX(x, xMirrored) && desiredY == MirrorY(y, yMirrored)
      ensures desiredAngle == MirrorAngle(angle, anglesMirrored)
      ensures var target := Point(desiredX, desiredY);
              cfg == PoseCfg(target, desiredAngle, p.lead, p.setback, p.minVoltage, p.maxVoltage,
                             p.headingMaxVoltage, p.settleError, g.lineSettled(target, desiredAngle + 90.0, start.position))
      ensures var target := Point(desiredX, desiredY);
              seeded == Book(0.0, Pid(driveGains, g.dist(target, start.position),
                                      Some(ExitConditions(p.settleError, p.settleTime, p.timeout)), []),
                             Pid(headingGains, g.bearing(start.position, target) - start.heading, None, []), old(drive))
      ensures var o := PoseRun(g, cfg, ticks, 0, StartPose(g, cfg, start.position), seeded);
              exit == o.exit && distanceTraveled == o.book.traveled && pid == o.book.pid && pid2 == o.book.pid2 &&
              motionRunning == (exit == StillRunning) && drive == AfterExit(exit, p.minVoltage, o.book.drive)
    {
      var loopCfg := BeginPose(g, x, y, angle, p, start);
      cfg, seeded := loopCfg, Bookkeeping();
      exit := PoseLoop(g, loopCfg, start, ticks);
      EndMotion(exit, p.minVoltage);
    }

    // --------------------------------------------------------- follow path

    /**
     * One pursuit iteration of follow_path on the segment start-end: choose
     * the lookahead point, update the distance traveled, both controllers
     * and the drive; returns the new target intersection.
     */
    method PursueIteration(g: Geometry, cfg: PathCfg, start: Point, end: Point, t: Tick, ghost segment: nat,
                           target: Point, prevPosition: Point) returns (target': Point)
      requires ValidGeometry(g)
      modifies this`distanceTraveled, this`pid, this`pid2, this`drive
      ensures PursueStep(g, cfg, start, end, t.reading, t.pidOutput, t.pid2Output,
                         PathState(segment, target, prevPosition), old(Bookkeeping()))
           == (PathState(segment, target', t.reading.position), Bookkeeping())
    {
      ghost var b0 := Bookkeeping();
      var r := t.reading;
      var intersections := LookaheadIntersections(g, r.position, cfg.lookahead, start, end);
      target' := target;
      if |intersections| == 2 {
        if g.dist(intersections[0], end) < g.dist(intersections[1], end) {
          target' := intersections[0];
        } else {
          target' := intersections[1];
        }
      } else if |intersections| == 1 {
        target' := intersections[0];
      }
      assert target' == LookaheadTarget(g, r.position, cfg.lookahead, start, end, target);
      distanceTraveled := distanceTraveled + g.dist(r.position, prevPosition);
      var driveError := g.dist(r.position, target');
      var headingError := ReduceNegative180To180(g.bearing(r.position, target') - r.heading);
      pid := Feed(pid, driveError);
      pid2 := Feed(pid2, ReduceNegative90To90(headingError));
      var headingOutput := if driveError < cfg.settleError then 0.0 else t.pid2Output;
      drive := PursuitCommand(cfg, g.cosDeg(headingError), t.pidOutput, headingOutput);
      PursueStepFields(g, cfg, start, end, r, t.pidOutput, t.pid2Output, PathState(segment, target, prevPosition), b0);
    }

    method PathLoop(g: Geometry, cfg: PathCfg, path: seq<Point>, start: Reading, ticks: seq<Tick>) returns (exit: Exit)
      requires ValidGeometry(g)
      modifies this`distanceTraveled, this`pid, this`pid2, this`drive
      ensures var o := PathRun(g, cfg, path, ticks, 0, PathState(0, start.position, start.position), old(Bookkeeping()));
              exit == o.exit && Bookkeeping() == o.book
    {
      var targetIntersection := start.position;
      var prevPosition := start.position;
      ghost var goal := PathRun(g, cfg, path, ticks, 0, PathState(0, targetIntersection, prevPosition), Bookkeeping());
      var segment := 0;
      var i := 0;
      while segment + 1 < |path|
        invariant i <= |ticks|
        invariant PathRun(g, cfg, path, ticks, i, PathState(segment, targetIntersection, prevPosition), Bookkeeping()) == goal
        decreases |ticks| - i
      {
        if i == |ticks| {
          return StillRunning;
        }
        ghost var s0 := PathState(segment, targetIntersection, prevPosition);
        ghost var b0 := Bookkeeping();
        var position := ticks[i].reading.position;
        var start, end := path[segment], path[segment + 1];
        if !(g.dist(position, end) > cfg.lookahead) {
          segment := segment + 1;
        } else {
          targetIntersection := PursueIteration(g, cfg, start, end, ticks[i], segment, targetIntersection, prevPosition);
          prevPosition := position;
        }
        assert PathStep(g, cfg, path, ticks[i], s0, b0) == (PathState(segment, targetIntersection, prevPosition), Bookkeeping());
        i := i + 1;
      }
      exit := PathDone;
    }

    /**
     * follow_path before its task starts: mirror the waypoints in place, put
     * the robot's position in front of them, seed both controllers with zero
     * error and start the motion.
     */
    method BeginPath(path: seq<Point>, p: PathParams, start: Reading)
      modifies this`desiredPath, this`motionRunning, this`distanceTraveled, this`pid, this`pid2
      ensures desiredPath == [start.position] + MirroredPath(path, xMirrored, yMirrored)
      ensures pid == Pid(driveGains, 0.0, Some(ExitConditions(p.settleError, p.settleTime, p.timeout)), [])
      ensures pid2 == Pid(headingGains, 0.0, None, [])
      ensures motionRunning && distanceTraveled == 0.0
    {
      var points := new Point[|path|](k requires 0 <= k < |path| => path[k]);
      assert points[..] == path;
      MirrorPathInPlace(points, xMirrored, yMirrored);
      pid := Pid(driveGains, 0.0, Some(ExitConditions(p.settleError, p.settleTime, p.timeout)), []);
      pid2 := Pid(headingGains, 0.0, None, []);
      StartMotion();
      desiredPath := [start.position] + points[..];
    }

    /** follow_path: pure pursuit along the mirrored waypoints, starting from the robot's position. */
    method FollowPath(g: Geometry, path: seq<Point>, p: PathParams, start: Reading, ticks: seq<Tick>)
      returns (exit: Exit, ghost seeded: Book)
      requires ValidGeometry(g)
      modifies this`desiredPath, this`motionRunning, this`distanceTraveled, this`pid, this`pid2, this`drive
      ensures desiredPath == [start.position] + MirroredPath(path, xMirrored, yMirrored)
      ensures seeded == Book(0.0, Pid(driveGains, 0.0, Some(ExitConditions(p.settleError, p.settleTime, p.timeout)), []),
                             Pid(headingGains, 0.0, None, []), old(drive))
      ensures var cfg := PathCfg(p.lookahead, p.maxVoltage, p.headingMaxVoltage, p.settleError);
              var o := PathRun(g, cfg, desiredPath, ticks, 0, PathState(0, start.position, start.position), seeded);
              exit == o.exit && distanceTraveled == o.book.traveled && pid == o.book.pid && pid2 == o.book.pid2 &&
              motionRunning == (exit == StillRunning) && drive == AfterExit(exit, p.minVoltage, o.book.drive)
    {
      BeginPath(path, p, start);
      seeded := Bookkeeping();
      exit := PathLoop(g, PathCfg(p.lookahead, p.maxVoltage, p.headingMaxVoltage, p.settleError), desiredPath, start, ticks);
      EndMotion(exit, p.minVoltage);
    }
  }
}
