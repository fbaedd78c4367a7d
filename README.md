# 654X robot code: motion stack and UI core, modelled in Dafny

This project models two cores of the 654X VEX robot code base and proves
properties about them: the motion stack of the drive
(`include/654X_Drive/util.h`, `include/654X_Drive/chassis.h`) and the
small UI library (`src/654-Template/654-UI`, `src/654X_UI/screen.cpp`).
It also models the PID tuner helpers of `src/test.cpp`.

## Motion stack

`DriveUtil` (`util.dfy`) models the helpers of `util.h` over `real`:

- `clamp` and the angle reductions;
- `angle_error` with its turn-direction preference;
- the mirroring helpers, `clamp_min_voltage` and the voltage scaling;
- `sign`;
- `line_circle_intersections`, as the roots of the quadratic along the
  segment. A segment of a single point yields that point when it lies on
  the circle. The square root of the discriminant is a parameter.

`util.cpp` is not part of this model, so each body follows the helper's
doc comment, and the model proves the range, sign, congruence and
involution properties that comment promises.

`Motion` (`motion.dfy`) models one tick of each control loop as a pure
step function over a small state record. The records are:

- the turn loops: `crossed`, `prev_error`, `prev_raw_error`;
- the drive loops: `line_settled`, `crossed_center_line`, the previous
  drive error;
- the pursuit loop: the segment, the target intersection and the
  previous position.

Each whole loop is a fold of its step over a finite trace of ticks. A
tick carries the odometry reading, both PID outputs and the PID's settle
verdict. Lemmas about the folds give:

- how each loop exits;
- that the distance traveled never shrinks;
- what each loop feeds its controllers;
- that `crossed` and `crossed_center_line` stay set once set;
- that the pursuit target stays on the path;
- that `follow_path` ignores the settle verdict.

`ChassisModel` (`chassis.dfy`) holds the `Chassis` class. Its fields are
the ones the entry points change: the `desired_*` targets,
`motion_running`, `distance_traveled`, both PIDs and the drive command.
Each entry point:

1. records its targets and seeds its controllers;
2. marks the motion running with nothing traveled;
3. runs its `while` loop over the trace;
4. finishes the motion, holding the drive unless a minimum voltage is set.

Each loop method is proved equal to the fold of its step function.
`follow_path` mirrors the waypoints in place in an array and then puts the
robot's position in front of them.

The model keeps these quirks of the code:

- `turn_to_angle` and the swings seed the PID with the error towards the
  angle as given, but loop on the mirrored angle.
- The point turns take the bearing to the target once, before the loop.
- `follow_path` never consults the PID's settle verdict.
- `sign(0)` is 1.
- Because `reduce_negative_180_to_180` returns values in [-180, 180),
  `angle_error` towards the fastest side does too. The doc comment of
  `angle_error` says (-180, 180]; the model follows the reduction's own
  range.

## UI

`UiIds` (`ui_util.dfy`) models the component identifiers. An identifier
packs type, toggle group and a running counter as
`type * 10000 + group * 100 + counter`. The decoders use C++ division,
which truncates toward zero; the model writes that out. A counter of 100
or more spills into the group digits.

`Screens` (`screen.dfy`) models a screen:

- its component table, a sequence plus an id-to-index map, with append
  and swap-and-pop removal;
- the scroll-direction check;
- the render skip rule, for both variants: the 654X screen also skips
  every negative id, the template's does not;
- deferred removal, `needs_update`, `render` and the scroll-bar alignment.

The model keeps these quirks:

- `set_x_pos` and `set_y_pos` shift the components by the new absolute
  coordinates, not by the change.
- The aligned scroll bar gets the same alignment value for both its x
  and its y.
- Right alignment uses the display width, not the screen's width.

`Graphics` (`graphic.dfy`) models the bounding box of a graphic group and
its setters. `UiManager` (`ui_manager.dfy`) models the render queue with
its swap buffer and the exclusivity rule of selector toggles.

`PidTuner` (`pid_tuner.dfy`) models `get_power`, `get_flicker_index`, the
flicker overwrite, the row window and the button handlers of the tuner.
Without a dot in the value's text, the flicker index counts from the end
and marks the digit of exponent +place rather than -place.

`SCREEN_WIDTH` and `SCREEN_HEIGHT` are not defined in any of the modelled
source files; they are taken to be 480 and 240.

## Model

| member | source | states |
|---|---|---|
| DriveUtil.Clamp | include/654X_Drive/util.h:17-26 | the result lies in [min, max] when min <= max, equals the input inside the range, and is the nearer bound outside it |
| DriveUtil.ReduceNegative180To180 | include/654X_Drive/util.h:78-83 | the result lies in [-180, 180) and is congruent to the angle modulo 360 |
| DriveUtil.ReduceNegative90To90 | include/654X_Drive/util.h:85-92 | the result lies in [-90, 90) and is congruent to the angle modulo 180 |
| DriveUtil.Reduce0To360 | include/654X_Drive/util.h:94-99 | the result lies in [0, 360) and is congruent to the angle modulo 360 |
| DriveUtil.Reduce180Unique | include/654X_Drive/util.h:78-83 | the reduction is the only value in [-180, 180) congruent to the angle |
| DriveUtil.Reduce180Periodic | include/654X_Drive/util.h:78-83 | whole turns added to the angle do not change its reduction |
| DriveUtil.MirrorAngleNegates | include/654X_Drive/util.h:101-109 | a mirrored angle is the negated angle modulo 360; unmirrored it is unchanged |
| DriveUtil.MirrorDirectionCases | include/654X_Drive/util.h:111-122 | CW and CCW swap under mirroring, FASTEST is fixed, no mirroring is the identity |
| DriveUtil.MirrorInvolutions | include/654X_Drive/util.h:101-140 | mirroring an angle, x, y or direction twice gives it back; mirrored x and y are negated |
| DriveUtil.AngleError | include/654X_Drive/util.h:142-154 | CW gives a result >= 0 and CCW one <= 0, each equal to the error when it already has that sign; FASTEST gives [-180, 180); all are congruent to the error modulo 360 |
| DriveUtil.AngleErrorSingleWrap | include/654X_Drive/util.h:142-154 | for errors within one turn, CW adds 360 to a negative error and CCW subtracts 360 from a positive one; the general AngleError reads "wrapped by adding 360" as adding or subtracting the fewest whole turns that give the promised sign, which is the single 360 on this range |
| DriveUtil.AngleErrorFastestPeriodic | include/654X_Drive/util.h:142-154 | the fastest error ignores whole turns |
| DriveUtil.ClampMinVoltage | include/654X_Drive/util.h:190-199 | 0 stays 0; otherwise the sign is kept and the magnitude is at least the floor; an output already above the floor is kept |
| DriveUtil.VoltageScalingBounds | include/654X_Drive/util.h:170-188 | both side voltages are within 12 V, and they are the plain sum and difference when those fit |
| DriveUtil.VoltageScalingKeepsShape | include/654X_Drive/util.h:170-188 | scaling keeps the sign and the zeroes of both sides |
| DriveUtil.VoltageScalingKeepsCurvature | include/654X_Drive/util.h:170-188 | scaling keeps the ratio of the two sides, so the arc is unchanged |
| DriveUtil.SignFacts | include/654X_Drive/util.h:204-208 | sign is -1 exactly for negatives and 1 otherwise, including 0; two signs differ exactly when one value is negative and the other is not |
| DriveUtil.LineCircleIntersections | include/654X_Drive/util.h:210-227 | at most two points, each at distance radius from the center and on the closed segment; a segment of one point on the circle yields that point |
| DriveUtil.Intersections | include/654X_Drive/util.h:210-227 | with any square-root function, the points found are sound in the same sense |
| DriveUtil.LineCircleComplete | include/654X_Drive/util.h:210-227 | every point of the segment whose distance from the center is the radius is among the points returned, one-point segments included |
| DriveUtil.IntersectionsComplete | include/654X_Drive/util.h:210-227 | with an exact square root the routine is complete: every point of the segment on the circle is returned |
| DriveUtil.EndpointOnCircleIsFound | include/654X_Drive/util.h:210-227 | an endpoint of any segment, one-point segments included, that lies on the circle is among the points returned |
| DriveUtil.MidpointCircleMeetsTwice | include/654X_Drive/util.h:210-227 | a circle centred on the midpoint of a segment longer than its diameter meets it twice |
| Motion.UtilGeometryIsValid | include/654X_Drive/util.h:201-227 | distances that are never negative, with the intersection routine above, make a geometry the motion lemmas accept |
| Motion.TurnCommand | include/654X_Drive/chassis.h:662-666 | a point turn drives the sides in opposite directions; a swing drives one side and holds the other |
| Motion.TurnStep | include/654X_Drive/chassis.h:644-667 | a tick stops with a sign flip exactly when a minimum voltage is set and the followed error's sign changed; otherwise crossed is raised exactly when it was set or the raw error's sign differs from the previous raw error's, the previous raw error becomes this tick's, the followed error is the raw error once crossed and the direction-constrained one before, its change is added to the distance traveled, it is fed to the PID, and the limited output drives the turn's sides |
| Motion.TurnRunExit | include/654X_Drive/chassis.h:644-671 | a turn loop ends settled, by a sign flip (only with a minimum voltage) or still running; without a minimum voltage it is still running exactly when no tick settled |
| Motion.TurnRunTraveled | include/654X_Drive/chassis.h:658 | the distance traveled never shrinks over a turn, and crossed never returns to false |
| Motion.TurnRunFollowsRawAfterCrossing | include/654X_Drive/chassis.h:644-656 | from the tick where the raw error changes sign on, every error fed to the PID is that tick's shortest-path error |
| Motion.TurnRunInputs | include/654X_Drive/chassis.h:644-668 | the PID inputs only grow, by at most one per tick; the heading PID is untouched; before crossing, CW inputs are >= 0 and CCW inputs <= 0 |
| Motion.TurnRunIgnoresPosition | include/654X_Drive/chassis.h:644-668 | a turn loop depends only on the headings, the PID outputs and the settle verdicts |
| Motion.ArcadeCommand | include/654X_Drive/chassis.h:606-611 | the sides sum to twice the drive output and differ by twice the heading output |
| Motion.DistanceStep | include/654X_Drive/chassis.h:595-611 | one drive_distance iteration never breaks; the error is the distance still to drive from the start reading, its change is added to the distance traveled, the drive PID gets it and the heading PID the [-180, 180) difference to the held heading, and the drive is the arcade command of the floored, clamped drive output and the clamped heading output, so the sides stay within the voltage limits |
| Motion.DistanceRunExit | include/654X_Drive/chassis.h:595-616 | drive_distance ends settled or is still running, the latter exactly when no tick settled |
| Motion.DistanceRunInputs | include/654X_Drive/chassis.h:595-613 | the distance traveled grows by at least the error's change; both PIDs get one input per tick; heading inputs lie in [-180, 180) |
| Motion.SteerCommand | include/654X_Drive/chassis.h:1018-1030 | both side voltages are within 12 V, and the sides are equal when the heading output is zero |
| Motion.PointStep | include/654X_Drive/chassis.h:1007-1033 | a tick breaks exactly when the settle line is newly crossed; otherwise it feeds the drive PID the distance to the target and the heading PID the [-90, 90) reduction of the bearing error to the target; the new prev_drive_error is that distance and its change is added to the distance traveled; the drive is the steering command of the bearing error's cosine and the two outputs, with the heading output dropped within settle_error, so it drives straight near the target |
| Motion.PointRunExit | include/654X_Drive/chassis.h:1007-1036 | drive_to_point ends settled, by crossing the settle line at some tick, or still running when no tick settled |
| Motion.PointRunInputs | include/654X_Drive/chassis.h:1007-1033 | the distance traveled grows by at least the error's change; heading inputs lie in [-90, 90) |
| Motion.PoseErrors | include/654X_Drive/chassis.h:1088-1103 | when the carrot distance is below the settle error or the setback, or the centre line has been crossed, the errors are the distance to the target and the reduced final-angle error; otherwise the carrot distance and the reduced bearing error to the carrot; the heading error lies in [-180, 180) |
| Motion.PoseStep | include/654X_Drive/chassis.h:1079-1118 | a tick breaks exactly when the settle line is newly crossed; crossed_center_line becomes set when the robot is on the other side from the start and stays set; the new prev_drive_error is the carrot distance and its change is added to the distance traveled; the drive PID gets PoseErrors' drive error, the heading PID the [-90, 90) reduction of its heading error, and the drive gets the steering command of that heading error's cosine and the two outputs |
| Motion.PoseRunExit | include/654X_Drive/chassis.h:1079-1122 | drive_to_pose ends settled, by a settle-line crossing at some tick, or still running; the mode switch is sticky and happens only when some tick changed side |
| Motion.PoseRunInputs | include/654X_Drive/chassis.h:1079-1118 | the distance traveled grows by at least the error's change, and both PIDs' inputs only grow |
| Motion.PoseRunSettlesOnTarget | include/654X_Drive/chassis.h:1100-1103 | once the centre line is crossed, every drive input is the distance to the target at that tick |
| Motion.PursuitTarget | include/654X_Drive/chassis.h:1175-1185 | with two intersections the one nearer the segment end (the second on a tie), with one that one, and otherwise the previous target |
| Motion.LookaheadTarget | include/654X_Drive/chassis.h:1172-1185 | the target is the previous one or a point of the segment at lookahead distance from the robot |
| Motion.PursuitCommand | include/654X_Drive/chassis.h:1196-1206 | the drive part is bounded by the cosine-scaled maximum, the heading part by the heading maximum; zero heading output drives straight |
| Motion.PursueStep | include/654X_Drive/chassis.h:1168-1207 | the new target is the pursuit choice among the lookahead circle's intersections with the segment, so it stays or moves onto the segment at lookahead distance; the distance moved since the last iteration is added; the drive PID gets the distance to the target and the heading PID the [-90, 90) reduction of the bearing error; the drive is the pursuit command of that error's cosine and the outputs, with the heading output dropped within settle_error |
| Motion.PathStep | include/654X_Drive/chassis.h:1164-1168 | the segment advances exactly when the segment's end is within the lookahead distance, with nothing else changed; otherwise one pursuit iteration runs on the segment |
| Motion.PathRunExit | include/654X_Drive/chassis.h:1164-1209 | follow_path finishes exactly when the last segment is done, and the segment index only grows |
| Motion.PathRunStaysOnPath | include/654X_Drive/chassis.h:1164-1209 | the target of the pursuit stays on the path |
| Motion.PathRunInputs | include/654X_Drive/chassis.h:1164-1209 | the distance traveled never shrinks; both PIDs get one input per iteration; heading inputs lie in [-90, 90); the exit conditions are never consulted |
| Motion.PathRunIgnoresSettled | include/654X_Drive/chassis.h:1164-1209 | follow_path gives the same result whatever the PID's settle verdicts |
| Motion.StartIsOnPath | include/654X_Drive/chassis.h:1150 | the position put in front of the path is on the path |
| Motion.MirroredPath | include/654X_Drive/chassis.h:1131-1141 | every waypoint keeps its place, with x negated when x is mirrored and y when y is mirrored |
| Motion.MirroredPathInvolution | include/654X_Drive/chassis.h:1131-1141 | mirroring a path twice gives it back |
| ChassisModel.AfterExit | include/654X_Drive/chassis.h:615-616 | a finished loop holds the drive exactly when the minimum voltage is 0 |
| ChassisModel.MirrorPathInPlace | include/654X_Drive/chassis.h:1131-1141 | the array afterwards holds the mirrored path |
| ChassisModel.Chassis.constructor | include/654X_Drive/chassis.h:110 | a new chassis keeps its gains, mirrors nothing and runs no motion |
| ChassisModel.Chassis.StartMotion | include/654X_Drive/chassis.h:581-582 | the motion is running and nothing is traveled |
| ChassisModel.Chassis.FinishMotion | include/654X_Drive/chassis.h:670-671 | the motion is finished, and the drive holds when the minimum voltage is 0 |
| ChassisModel.Chassis.EndMotion | include/654X_Drive/chassis.h:1212-1213 | a loop that ended finishes the motion; one still running leaves it running |
| ChassisModel.Chassis.TurnIteration | include/654X_Drive/chassis.h:644-667 | one loop body is one turn step: a break on a sign flip changes nothing, otherwise the state is the step's |
| ChassisModel.Chassis.TurnLoop | include/654X_Drive/chassis.h:638-668 | the loop computes the exit and the bookkeeping of the turn fold |
| ChassisModel.Chassis.TurnMotion | include/654X_Drive/chassis.h:629-671 | the seeded, started, looped and finished turn |
| ChassisModel.Chassis.TurnToAngle | include/654X_Drive/chassis.h:625-676 | the mirrored target angle and direction drive the loop, while the PID is seeded towards the unmirrored angle; the exit and the new state are the turn fold's |
| ChassisModel.Chassis.SwingToAngle | include/654X_Drive/chassis.h:678-786 | the same for the left and right swings, using the swing gains and holding one side |
| ChassisModel.Chassis.BeginTurnToPoint | include/654X_Drive/chassis.h:788-811 | the mirrored target and a bearing to it taken once from the starting reading |
| ChassisModel.Chassis.TurnToPoint | include/654X_Drive/chassis.h:788-979 | point turns and swings to a point loop on that fixed bearing plus the offset; the exit and the new state are the turn fold's |
| ChassisModel.Chassis.DistanceIteration | include/654X_Drive/chassis.h:596-611 | one loop body is one drive_distance step |
| ChassisModel.Chassis.DistanceLoop | include/654X_Drive/chassis.h:589-613 | the loop computes the exit and the bookkeeping of the distance fold |
| ChassisModel.Chassis.DriveDistance | include/654X_Drive/chassis.h:573-623 | the targets, the seeds and the exit and new state of the distance fold |
| ChassisModel.Chassis.PointIteration | include/654X_Drive/chassis.h:1010-1031 | one loop body past the break test is one drive_to_point step |
| ChassisModel.Chassis.PointLoop | include/654X_Drive/chassis.h:1002-1033 | the loop computes the exit and the bookkeeping of the point fold |
| ChassisModel.Chassis.BeginPoint | include/654X_Drive/chassis.h:981-994 | the mirrored target, the bearing heading, both seeds, and a started motion |
| ChassisModel.Chassis.DriveToPoint | include/654X_Drive/chassis.h:981-1042 | the set-up above, then the exit and new state of the point fold |
| ChassisModel.Chassis.PoseIteration | include/654X_Drive/chassis.h:1082-1117 | one loop body past the break test is one drive_to_pose step |
| ChassisModel.Chassis.PoseLoop | include/654X_Drive/chassis.h:1066-1118 | the loop computes the exit and the bookkeeping of the pose fold |
| ChassisModel.Chassis.BeginPose | include/654X_Drive/chassis.h:1044-1059 | the mirrored pose, the side of the centre line at the start, both seeds, and a started motion |
| ChassisModel.Chassis.DriveToPose | include/654X_Drive/chassis.h:1044-1128 | the set-up above, then the exit and new state of the pose fold |
| ChassisModel.Chassis.PursueIteration | include/654X_Drive/chassis.h:1168-1207 | one inner loop body is one pursuit step |
| ChassisModel.Chassis.PathLoop | include/654X_Drive/chassis.h:1159-1209 | the nested loops compute the exit and the bookkeeping of the path fold |
| ChassisModel.Chassis.BeginPath | include/654X_Drive/chassis.h:1131-1152 | the stored path is the robot's position followed by the mirrored waypoints; both seeds are zero; the motion is started |
| ChassisModel.Chassis.FollowPath | include/654X_Drive/chassis.h:1130-1219 | the set-up above, then the exit and new state of the path fold |
| UiIds.TruncDiv | src/654-Template/654-UI/UI_util.cpp:22-32 | the C++ quotient for a positive divisor, truncated toward zero |
| UiIds.TruncMod | src/654-Template/654-UI/UI_util.cpp:22-32 | the C++ remainder: quotient times divisor plus remainder is the dividend, with the dividend's sign |
| UiIds.DecodeRecomposes | src/654-Template/654-UI/UI_util.cpp:22-32 | the three decoded fields pack back into the identifier, negative ones included |
| UiIds.DecodeBounds | src/654-Template/654-UI/UI_util.cpp:26-32 | a non-negative identifier has group and counter in [0, 99]; a negative one has fields <= 0 of at most two digits |
| UiIds.DecodePacked | src/654-Template/654-UI/UI_util.cpp:18-32 | fields of two digits decode back from their packing |
| UiIds.CounterSpillsIntoGroup | src/654-Template/654-UI/UI_util.cpp:18-32 | for any counter, the identifier decodes to the counter's last two digits, the group plus the counter's hundreds (modulo 100) and the type plus the group's overflow |
| UiIds.IdAllocator.constructor | src/654-Template/654-UI/UI_util.cpp:3 | the counter starts at 0 |
| UiIds.IdAllocator.CreateId | src/654-Template/654-UI/UI_util.cpp:5-20 | fields outside [0, 99] abort with the counter unchanged; otherwise the counter is incremented and packed after the fields; while the counter is at most 99 the identifier decodes back to its type, group and counter, and beyond that its hundreds show in the group |
| UiIds.ToPixelsIsScaling | src/654-Template/654-UI/UI_util.cpp:34-43 | the conversion is additive, monotone and sign-preserving, and the identity for pixels |
| Screens.CheckBounds | src/654X_UI/screen.cpp:9-21 | abort exactly when both sizes exceed the display; horizontal wins over vertical; otherwise the direction is kept |
| Screens.CheckBoundsKeepsScrolling | src/654-Template/654-UI/screen.cpp:9-21 | a scrolling screen never goes back to not scrolling |
| Screens.AppendSound | src/654X_UI/screen.cpp:238-242 | appending keeps every mapped id pointing at its component |
| Screens.AppendFreshComplete | src/654-Template/654-UI/screen.cpp:207-211 | appending a fresh id keeps the map exact and adds just that id |
| Screens.AppendDuplicateHidesEarlier | src/654X_UI/screen.cpp:238-242 | appending a duplicate id hides the earlier component from the map |
| Screens.AppendAllSound | src/654X_UI/screen.cpp:244-250 | adding several components keeps the map sound |
| Screens.AppendAllComponents | src/654-Template/654-UI/screen.cpp:213-219 | the components added are appended in order, each offset by the screen's position |
| Screens.SwapPop | src/654X_UI/screen.cpp:257-274 | one swap-and-pop removal keeps the map sound |
| Screens.SwapPopRemovesExactly | src/654-Template/654-UI/screen.cpp:226-243 | it keeps an exact map, removes exactly the components with that id, and shrinks the table by one only when the id was present |
| Screens.RemoveAll | src/654X_UI/screen.cpp:257-274 | removing a list of ids keeps the map sound |
| Screens.RemoveAllRemovesExactly | src/654-Template/654-UI/screen.cpp:226-243 | it keeps an exact map and leaves exactly the components whose ids are not listed |
| Screens.ShiftAll | src/654X_UI/screen.cpp:37-48 | every component is moved by the same offset |
| Screens.ShiftAllKeepsTable | src/654X_UI/screen.cpp:37-48 | moving the components keeps the map sound and exact |
| Screens.SkipRules | src/654X_UI/screen.cpp:78-97 | the 654X rule skips every negative id; the template's skips exactly what is outside the scroll band; a screen that does not scroll skips only negative ids under the 654X rule |
| Screens.Visible | src/654-Template/654-UI/screen.cpp:117-136 | render draws exactly the components that are not skipped |
| Screens.AlignedBarPlacement | src/654X_UI/screen.cpp:280-291 | bottom puts the bar's bottom on the screen's, top and left the screen's edges, and right ends the bar at the display width past x, which is the screen's right edge exactly on a full-width screen |
| Screens.Screen.constructor | src/654X_UI/screen.cpp:3-7 | a screen that fits the display starts empty with its scroll direction from check_bounds |
| Screens.Screen.SetWidth | src/654X_UI/screen.cpp:28-31 | the width is stored and check_bounds re-run |
| Screens.Screen.SetHeight | src/654X_UI/screen.cpp:32-35 | the height is stored and check_bounds re-run |
| Screens.Screen.SetXPos | src/654X_UI/screen.cpp:37-42 | x is stored and every component is moved by the new x and the current y |
| Screens.Screen.SetYPos | src/654X_UI/screen.cpp:43-48 | y is stored and every component is moved by the current x and the new y |
| Screens.Screen.ShiftComponents | src/654X_UI/screen.cpp:37-48 | the loop moves every component by the offset |
| Screens.Screen.AddScrollBar | src/654X_UI/screen.cpp:50-56 | abort exactly when the bar is wider or taller than the screen; otherwise the bar is stored |
| Screens.Screen.AddAlignedScrollBar | src/654X_UI/screen.cpp:58-62 | the bar is stored at the alignment position on both axes |
| Screens.Screen.AddComponent | src/654X_UI/screen.cpp:238-242 | the offset component is appended and its id mapped to the new last index |
| Screens.Screen.AddComponents | src/654-Template/654-UI/screen.cpp:213-219 | the loop appends each offset component in order |
| Screens.Screen.RemoveComponents | src/654X_UI/screen.cpp:252-255 | removal is only scheduled |
| Screens.Screen.ExecuteRemoval | src/654X_UI/screen.cpp:257-274 | the loop removes every listed id by swap-and-pop |
| Screens.Screen.NeedsUpdate | src/654-Template/654-UI/screen.cpp:78-115 | a scheduled removal is executed first; the answer is yes exactly when a redraw was pending, a removal ran, or a component that is not skipped wants an update (the screen's pending answer before the call); both flags are cleared, and after a no the screen has nothing pending |
| Screens.Screen.Render | src/654X_UI/screen.cpp:137-149 | the components drawn are the visible ones, in order |
| Graphics.BoundsContain | src/654-Template/654-UI/graphic.cpp:17-39 | every child lies inside the bounds |
| Graphics.BoundsTight | src/654-Template/654-UI/graphic.cpp:29-38 | some child reaches each of the four edges |
| Graphics.Moved | src/654-Template/654-UI/graphic.cpp:46-80 | every child is moved and grown by the same deltas |
| Graphics.MovedBounds | src/654-Template/654-UI/graphic.cpp:46-80 | moving the children moves the bounds by the same deltas |
| Graphics.MovedTwice | src/654-Template/654-UI/graphic.cpp:62-65 | a move in x after one in y is one move by both |
| Graphics.Graphic.constructor | src/654-Template/654-UI/graphic.cpp:11-15 | a group of at least one drawable stores them and their tight bounds |
| Graphics.Graphic.Single | src/654-Template/654-UI/graphic.cpp:5-9 | a group of one drawable has that drawable's box |
| Graphics.Graphic.CalculateBounds | src/654-Template/654-UI/graphic.cpp:17-39 | the stored box is the bounds of the children |
| Graphics.Graphic.MoveChildren | src/654-Template/654-UI/graphic.cpp:46-80 | the loop moves every child by the delta |
| Graphics.Graphic.SetXPos | src/654-Template/654-UI/graphic.cpp:46-52 | every child moves by the change in x, x is stored, and tight bounds stay tight |
| Graphics.Graphic.SetYPos | src/654-Template/654-UI/graphic.cpp:54-60 | every child moves by the change in y, y is stored, and tight bounds stay tight |
| Graphics.Graphic.SetPosition | src/654-Template/654-UI/graphic.cpp:62-65 | set_x_pos then set_y_pos; tight bounds stay tight |
| Graphics.Graphic.SetWidth | src/654-Template/654-UI/graphic.cpp:67-73 | every child grows by the change in width, the width is stored, and tight bounds stay tight |
| Graphics.Graphic.SetHeight | src/654-Template/654-UI/graphic.cpp:74-80 | every child grows by the change in height, the height is stored, and tight bounds stay tight |
| UiManager.ExecuteSelectorToggles | src/654-Template/654-UI/UI_manager.cpp:92-110 | for a positive group, the toggle is locked when pressed and locking is asked for, every other toggle of its group is unpressed, and the rest are untouched; a group <= 0 changes nothing |
| UiManager.NegativeIdsSelectNothing | src/654-Template/654-UI/UI_manager.cpp:93-95 | a negative id has a group <= 0, so it selects nothing |
| UiManager.Manager.constructor | src/654-Template/654-UI/UI_manager.cpp:3-5 | an empty queue and buffer and no swap pending |
| UiManager.Manager.SwapScreens | src/654-Template/654-UI/UI_manager.cpp:56-59 | the screens wait in the buffer and a swap is pending |
| UiManager.Manager.TakeSwap | src/654-Template/654-UI/UI_manager.cpp:65-71 | a pending swap makes the buffer the queue and clears it |
| UiManager.Manager.RenderStep | src/654-Template/654-UI/UI_manager.cpp:61-90 | the swap; each polled screen answers with its pending redraw and the poll stops at the first yes, leaving later screens untouched; every queued screen is rendered exactly when a swap happened or some queued screen had a redraw pending |
| UiManager.PollUntilUpdate | src/654-Template/654-UI/UI_manager.cpp:73-78 | the answers are all no but the last, which is yes unless every screen was polled; each answer is that screen's pending redraw at the start; some answer is yes exactly when some screen had one pending; screens after the stop are unchanged |
| UiManager.RenderAll | src/654-Template/654-UI/UI_manager.cpp:80-86 | each queued screen draws its visible components, in order |
| PidTuner.GetPower | src/test.cpp:229-237 | 1 for n below 10 (n <= 0 included); otherwise a power of ten p with p <= n < 10p |
| PidTuner.FindDot | src/test.cpp:212-213 | -1 exactly when there is no dot, otherwise the index of the first dot |
| PidTuner.FlickerIndex | src/test.cpp:211-227 | with a dot the index marks the digit of exponent -place, never the dot; without one it marks the digit of exponent +place |
| PidTuner.FlickerOverwrite | src/test.cpp:264-279 | only a digit at an index inside the text changes: '1' becomes '-', any other digit '_' |
| PidTuner.Window | src/test.cpp:255-256 | three rows that contain the selected row, ending just after it from the third row on |
| PidTuner.ScaleFiner | src/test.cpp:324-330 | ten times finer, but never below one over the value's largest power of ten |
| PidTuner.ScaleCoarser | src/test.cpp:331-337 | ten times coarser, but never above 1000 |
| PidTuner.Tuner.constructor | src/test.cpp:96-107 | the tuner holds the gain list with the first row selected and a unit step |
| PidTuner.Tuner.UpdateWindow | src/test.cpp:255-256 | the stored rows are the window of the selection |
| PidTuner.Tuner.Up | src/test.cpp:304-308 | the selection moves up unless at the top and the step resets to one unit |
| PidTuner.Tuner.Down | src/test.cpp:309-313 | the selection moves down unless at the bottom and the step resets to one unit |
| PidTuner.Tuner.Right | src/test.cpp:314-318 | a positive step of one unit of the scale is queued |
| PidTuner.Tuner.Left | src/test.cpp:319-323 | a negative step of one unit of the scale is queued |
| PidTuner.Tuner.Finer | src/test.cpp:324-330 | the scale becomes the finer scale |
| PidTuner.Tuner.Coarser | src/test.cpp:331-337 | the scale becomes the coarser scale |
| PidTuner.Tuner.RefreshSelected | src/test.cpp:284-291 | the upper size is the selected value's largest power of ten; a queued step is applied once and cleared |

## Left out

- Tasks and concurrency: the `vex::task` that runs each loop, the sleeps, `wait`, `wait_until` and the race with odometry. Each entry point and its loop run as one synchronous call over a finite trace of ticks. A trace that ends first leaves the motion running.
- The timeouts and settle timers inside `PID`. `util.cpp`, the `PID` class and odometry are not part of this model. The PID's output and settle verdict are inputs of each tick, and the model records only which errors are fed to it.
- Trigonometry and square roots (`atan2`, `sin`, `cos`, `hypot`, `to_rad`, `to_deg`) and `is_line_settled`. They are functions of a `Geometry` parameter. `Motion.UtilGeometryIsValid` ties its intersections to the modelled `line_circle_intersections`.
- Floating point: every `float` is a `real`. `float` rounding and overflow are not modelled.
- Motor groups, sensors, `Brain.Screen`, the controller, the SD card and the printing helpers. These are hardware and I/O.
- Touch and controller scrolling and `update_scroll_bar`. They depend on touch input and float ratios.
- The drawing done by `render`: drawing is modelled as the sequence of components drawn.
- Components, drawables and screens are shared objects in the source. Components and drawables are values here. Aliasing between screens, and the position offsets the source writes into the caller's objects, are not modelled.
- The default `graphic()` constructor, which leaves the fields uninitialised.
- `toggle.cpp` is not part of this model. `UiManager.Toggle.Unpress` is taken to clear the pressed state and the lock.
- The abort of the screen constructor is a precondition. The other aborts are modelled as results.
- UiIds.IdAllocator.CreateId: the 32-bit `int` counter is unbounded here, so its wrap-around is not modelled.
- PidTuner.GetPower: the `int` power is unbounded here, so overflow for values of 10^10 and more is not modelled.
- PidTuner.FlickerOverwrite: the display task overwrites the digit only on every second pass over the selected row (a static counter tested for evenness), which makes it blink. That alternation is a matter of timing and is not modelled; FlickerOverwrite is what a pass that does overwrite shows.
- PidTuner.FlickerIndex: the place is `log10` of the scale taken as a whole number of digits. The float logarithm and its truncation are not modelled.
- The value's decimal text (`to_string_float`) is an input of the flicker rules, not computed from the value.
- A tuner with no variables is excluded by `PidTuner.Tuner.Valid`; the source always lists at least five.
- The `pid_data` record is not part of this model. Its defaults are taken to be the first row with a unit step. `var_upper_size` and `modifer_scale` are taken to be floating point, so `1 / var_upper_size` is a real quotient.
- The SD-card writes of a tuned value are left out; they are I/O.
- `config_screen`, `label`, `text`, `image`, `manual_drive`, both other `test.cpp` files, `autons.h`, `run_diagnostic`, the `config_*` functions and the skills timer: UI layout, formatting, joystick input and hardware probes.
