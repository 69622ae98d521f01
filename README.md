# AI Robot Artist — drawing and erasing core, modelled in Dafny

AI Robot Artist drives a UFactory xArm that draws pictures on a canvas with a
marker and rubs them out with an eraser. This project models the part of the
program that sits between an image and the arm:

- **Configuration** (`CanvasConfig`, `RobotConfig`). The canvas bounds and
  dimensions. The per-speed values and per-tool pen heights, with the robot's
  mutable state (mounted tool, pose state).
- **Fault handling** (`RobotErrorHandler`). The controller and joint fault
  tables. The decision whether a fault may be recovered automatically, the
  retry budget of three per (code, action) key, the error history and its
  summary.
- **The robot service** (`RobotService`). The pose state machine
  (UNKNOWN, CALCULATING, MOVING, PAUSED, CENTRED, TOOL_CHANGE, DOCKED) and the
  connect sequence. The error check before each move, and the recovery
  actions with the arm commands they send. The move with its re-centring from
  UNKNOWN or DOCKED, its retry after a failed dispatch, and the named poses.
  The arm is a class with two fault registers and a log of the commands it
  received, each move with the status it answered and the error register it
  was sent on. Its status codes are chosen freely. The service keeps a log
  of every move requested of it, so each operation can say which moves it
  asked for and which reached the arm.
- **The movement service** (`MovementService`). The pixel-to-canvas mapping
  with clamping and truncation, and the scale factor. The optional polyline
  simplification, and the exact sequence of moves that follow_vectors issues
  for a set of strokes, each of which the robot service logs in issue order.
- **The vectoriser** (`Contours` is its specification, `PathPlanning` its
  algorithm). The raster scan with an iterative 8-connected depth-first
  search over a visited grid. The nearest-neighbour reordering of each
  component into strokes whose steps are at most √5 pixels. The filter that
  keeps only strokes of two or more points.
- **The eraser planner** (`EraserCoverage` is its specification,
  `PathPlanning` its algorithm). A greedy coverage of every ink pixel by
  80×40 rectangles. It starts from the ink pixel with the least row + column
  and always moves to the nearest ink pixel still uncovered.

The state-changing parts of the source are classes with `modifies` clauses:
the robot configuration, the error handler, the arm and the two services.
The DFS, the reordering loop, the scan and the eraser loop are methods with
loop invariants, proved against the specification functions and predicates
in `Contours` and `EraserCoverage`. The visited and covered grids are
`array2<bool>`.

Some robot-service operations call each other reentrantly. A move re-centres
first, and a RE_PLAN_PATH recovery re-centres too. The proof that this ends
uses a retry budget as its measure: each RE_PLAN_PATH recovery spends one
unit of a finite budget before it re-centres. That ordering is one of the
corrections listed under "## Findings".

## Model

| member | source | states |
|---|---|---|
| CanvasConfig.CanvasConfig.Center | config/canvas_config.py:21-24 | the centre is the midpoint of both bound pairs, so it lies within bounds whenever the bounds are ordered |
| CanvasConfig.CanvasConfig.Dimensions | config/canvas_config.py:16-19 | the (width, height) pair; on a canvas whose fields are its own spans it reaches from the minimum corner to the maximum one |
| CanvasConfig.CanvasConfig.IsWithinBounds | config/canvas_config.py:26-29 | inclusive on all four edges, equivalently no further from the midpoint than half the span on each axis |
| CanvasConfig.Default | config/canvas_config.py:8-14 | the default canvas has ordered bounds and its width and height are the spans of those bounds |
| CanvasConfig.WithBounds | config/canvas_config.py:8-14 | a canvas built with its own bounds keeps the class-level width and height, not the spans of its own bounds |
| CanvasConfig.DefaultGeometry | config/canvas_config.py:8-24 | the default canvas measures 180 × 380 and is centred at (325, 0) |
| CanvasConfig.BoundsAreInclusive | config/canvas_config.py:26-29 | all four corners are within bounds, and any point a positive distance outside an edge is not |
| CanvasConfig.DimensionsIgnoreBoundOverrides | config/canvas_config.py:13-19 | overriding the bounds to 0..100 still reports dimensions (180, 380), which differ from the new spans |
| RobotConfig.RobotConfig.constructor | config/robot_config.py:9-60 | every default: MARKER mounted, state UNKNOWN, the speed and pen-height tables, roll 180, pitch 0, yaw 0, mvacc 100, and the centred, tool-change and docked poses |
| RobotConfig.RobotConfig.GetSpeed | config/robot_config.py:62-64 | the configured value of the speed type, falling back to NORMAL's value when the type is missing |
| RobotConfig.RobotConfig.SetSpeed | config/robot_config.py:66-68 | the speed table is updated at one key; the new value is read back and every other configured speed is unchanged |
| RobotConfig.RobotConfig.SetAttachment | config/robot_config.py:70-75 | succeeds exactly when the tool has pen heights, and then mounts it; on failure the mounted tool is unchanged |
| RobotConfig.DefaultSpeedValues | config/robot_config.py:31-36 | FAST, NORMAL and SLOW are 300, 100 and 50 |
| RobotConfig.MountedToolLoweredBelowRaised | config/robot_config.py:78-86 | with the default table the mounted tool's lowered height is below its raised height; the eraser's are 59 and 80 |
| RobotConfig.RobotConfig.ZLowered | config/robot_config.py:78-81 | the mounted tool's contact height; with the default table between 59 and 158 and at least 7 below the raised height |
| RobotConfig.RobotConfig.ZRaised | config/robot_config.py:83-86 | the mounted tool's raised height; with the default table between 80 and 170 |
| RobotConfig.DefaultLoweredBelowRaised | config/robot_config.py:38-44 | every tool has pen heights, with lowered below raised |
| RobotErrorHandler.ControllerErrorInfo | src/utils/robot_error_handler.py:35-148 | an entry exists exactly for the codes of the controller table |
| RobotErrorHandler.JointErrorInfo | src/utils/robot_error_handler.py:151-159 | the joint table has exactly one entry, for code 21 |
| RobotErrorHandler.LookupErrorInfo | src/utils/robot_error_handler.py:182-185 | the controller table is consulted first and the joint table only for codes it lacks, so a code is known exactly when it is in the controller table |
| RobotErrorHandler.CriticalCodes | src/utils/robot_error_handler.py:35-148 | a known code is CRITICAL exactly when it is 26 or 38 |
| RobotErrorHandler.RePlanCodes | src/utils/robot_error_handler.py:35-148 | a known code asks for RE_PLAN_PATH exactly when it is 21, 22 or 25 |
| RobotErrorHandler.Code21IsKinematic | src/utils/robot_error_handler.py:151-159 | code 21 is in both tables and resolves to the controller's LOW "Kinematic Error" with RE_PLAN_PATH, so the joint entry is never used |
| RobotErrorHandler.Bumped | src/utils/robot_error_handler.py:234-237 | incrementing a key raises its count (0 when absent) by one and leaves every other key's count alone |
| RobotErrorHandler.CanAutoRecover | src/utils/robot_error_handler.py:221-232 | never for CRITICAL, never for actions other than AUTO_RETRY, REDUCE_SPEED and RE_PLAN_PATH, and otherwise exactly while the key's count is below three |
| RobotErrorHandler.Classify | src/utils/robot_error_handler.py:167-219 | code 0 is "No error" with AUTO_RETRY; an unknown code is not recoverable and asks for CONTACT_SUPPORT; a known code carries its table action, and is recoverable exactly under the retry policy |
| RobotErrorHandler.CriticalNeverAutoRecovers | src/utils/robot_error_handler.py:221-224 | codes 26 and 38 are never recovered automatically, whatever the counts |
| RobotErrorHandler.SpeedLimitScenario | src/utils/robot_error_handler.py:167-219 | code 24 is LOW, asks for REDUCE_SPEED and is recoverable with no retries spent |
| RobotErrorHandler.BudgetOfThree | src/utils/robot_error_handler.py:221-237 | a recoverable code is allowed after 0, 1 and 2 increments of its key and refused after the third |
| RobotErrorHandler.SummaryTitleMatchesClassifier | src/utils/robot_error_handler.py:255-258 | the summary line of a known code shows the same title that classification uses |
| RobotErrorHandler.SummaryStep | src/utils/robot_error_handler.py:255-258 | the summary is built one line per record, in order |
| RobotErrorHandler.RecentErrors | src/utils/robot_error_handler.py:252 | the last five records (all of them when fewer), in their original order |
| RobotErrorHandler.SummaryGrowsByOneLine | src/utils/robot_error_handler.py:247-260 | below five records, logging one more appends exactly its line to the summary |
| RobotErrorHandler.RecentWindowSlides | src/utils/robot_error_handler.py:252 | from five records on, logging one more drops the oldest from the window and appends the new one |
| RobotErrorHandler.XArmErrorHandler.constructor | src/utils/robot_error_handler.py:161-165 | empty history and no retry counts |
| RobotErrorHandler.XArmErrorHandler.HandleError | src/utils/robot_error_handler.py:167-219 | returns the classification, and appends a record exactly for a nonzero known code |
| RobotErrorHandler.XArmErrorHandler.IncrementRetryCount | src/utils/robot_error_handler.py:234-237 | the key's count goes up by one |
| RobotErrorHandler.XArmErrorHandler.ResetRetryCount | src/utils/robot_error_handler.py:239-245 | with no arguments every count is cleared; with both arguments that key is removed; with only one argument nothing changes |
| RobotErrorHandler.XArmErrorHandler.GetErrorSummary | src/utils/robot_error_handler.py:247-260 | the loop builds exactly the summary of the recent window, or "No errors recorded" |
| RobotService.Arm.SetPosition | src/services/robot_service.py:191-200 | logs the command with the status it answered and the error register it was sent on; the status and the fault registers it leaves are the arm's choice |
| RobotService.Arm.CleanError | src/services/robot_service.py:81 | logs the call; the fault registers it leaves are the arm's choice |
| RobotService.Arm.CleanWarn | src/services/robot_service.py:82 | logs the call; the fault registers it leaves are the arm's choice |
| RobotService.Arm.MotionEnable | src/services/robot_service.py:106 | logs the call; the fault registers it leaves are the arm's choice |
| RobotService.Arm.SetState | src/services/robot_service.py:107 | logs the call; the fault registers it leaves are the arm's choice |
| RobotService.BudgetMonotone | src/services/robot_service.py:114-115 | counts that never fall give a RE_PLAN_PATH budget that never grows |
| RobotService.BudgetDrops | src/services/robot_service.py:114-115 | counting one allowed RE_PLAN_PATH recovery strictly lowers the budget |
| RobotService.RobotService.MoveCommand | src/services/robot_service.py:168-200 | an omitted Z is the mounted tool's raised or lowered height; omitted angles are the configured ones; the speed falls back to NORMAL; mvacc is the configured one |
| RobotService.RobotService.constructor | src/services/robot_service.py:11-26 | connecting sends clean_warn, clean_error, motion_enable(True) and set_state(0) in that order; the first move requested of the service is the slow move to the centred pose, and the state ends CENTRED |
| RobotService.RobotService.GetRobotState | src/services/robot_service.py:151-155 | the configuration's current state |
| RobotService.RobotService.SetRobotState | src/services/robot_service.py:145-149 | sets the state and records it in the trace |
| RobotService.RobotService.GetAttachment | src/services/robot_service.py:139-143 | the mounted tool |
| RobotService.RobotService.ChangeAttachment | src/services/robot_service.py:133-137 | succeeds exactly when the tool has pen heights; only then does the mounted tool change |
| RobotService.RobotService.GetErrorSummary | src/services/robot_service.py:129-131 | the error handler's summary of its history |
| RobotService.RobotService.CheckAndHandleErrors | src/services/robot_service.py:28-60 | the result is true exactly when the error register reads 0 at the end; register 0 passes and changes nothing; a known fault is logged with its context and an unknown one logs nothing; a fault the policy refuses fails without touching the arm, the requests or the counts; a recoverable fault runs its recovery: clean_error and clean_warn are sent and the count of (code, action) rises, by exactly one unless it re-plans; RE_PLAN_PATH (and only it) requests the slow centred move and ends CENTRED |
| RobotService.RobotService.AttemptRecovery | src/services/robot_service.py:64-127 | each action sends its exact arm commands and counts one attempt for its key; RE_PLAN_PATH first requests the slow centred move and ends CENTRED, the others request no move; other actions fail and change nothing; success means the register reads 0 |
| RobotService.RobotService.ResetRecovery | src/services/robot_service.py:79-123 | AUTO_RETRY and REDUCE_SPEED send clean_error, clean_warn; RESTART_ROBOT adds motion_enable(True) and set_state(0); the key's count goes up by one |
| RobotService.RobotService.RePlanRecovery | src/services/robot_service.py:92-115 | sends clean_error and clean_warn, counts the attempt, then requests the slow centred move and ends CENTRED |
| RobotService.RobotService.MoveCanvasPosition | src/services/robot_service.py:157-226 | the call is logged as a request with its own arguments, and the command is built from the defaults; from UNKNOWN the next request is the NORMAL centred move and from DOCKED the SLOW one, passing through CALCULATING and ending CENTRED before it marks MOVING; every status it reports is the arm's answer to a set_position of that command sent on a clear error register; it returns -1 without dispatching only when the check leaves the register non-zero; from any other state a clear register dispatches, and a fault the policy refuses returns -1, sends nothing and leaves MOVING; a zero status returns 0; a failed dispatch is sent once more, as the last arm call, only after a recovery that cleared the register, and its status returned; once dispatched the state ends PAUSED (CENTRED when the last check re-planned) |
| RobotService.RobotService.RecentreAndDispatch | src/services/robot_service.py:178-226 | the body of move_canvas_position after its defaults: the re-centring request from UNKNOWN or DOCKED, the state trace, statuses that are the arm's answers to set_position calls of the command sent on a clear register, -1 only with the register non-zero, and from any other state the refused-fault outcome (-1, nothing sent, MOVING) |
| RobotService.RobotService.RecentreIfNeeded | src/services/robot_service.py:178-183 | from UNKNOWN the state becomes CALCULATING and the NORMAL centred move is requested; from DOCKED the same with SLOW; both end CENTRED; from any other state the requests, the arm, the error handler and the configuration are unchanged |
| RobotService.RobotService.DispatchMove | src/services/robot_service.py:185-226 | marks MOVING; every status is the arm's answer to a set_position of the command sent on a clear register; it returns -1 without dispatching only when the check leaves the register non-zero; with a clear register the command is sent; with a fault the policy refuses nothing is sent, -1 is returned and the state stays MOVING; a zero status returns 0; after a failed status at most one more dispatch, whose status is returned; once dispatched the state ends PAUSED |
| RobotService.RobotService.SendWithRetry | src/services/robot_service.py:191-226 | with the register clear after the check, the command is sent and PAUSED recorded; a zero status is the only arm call and is returned; otherwise at most one retry of the same command, on a clear register and as the last arm call, whose status is returned |
| RobotService.RobotService.MarkMovingAndCheck | src/services/robot_service.py:185-189 | the state is MOVING, then the error check runs: the result is true exactly when the register reads 0; a clear register changes nothing else; a refused fault fails without re-planning or touching the arm; a known fault is logged under the move's context |
| RobotService.RobotService.RetryFailedDispatch | src/services/robot_service.py:204-226 | a known fault is logged under "set_position failed with code " and the failed status; the command is retried exactly when the check leaves the register 0, the retry being sent on that clear register as the last arm call and its status returned; a clear register always retries and a refused fault never does; otherwise the failed status is returned with the register non-zero |
| RobotService.RobotService.MoveCentredPosition | src/services/robot_service.py:228-234 | requests the centred pose at the given speed; the statuses are the arm's answers to set_position calls of the centred command, which is sent from a non-UNKNOWN, non-DOCKED state with a clear register; ends CENTRED |
| RobotService.RobotService.MoveChangeToolPosition | src/services/robot_service.py:237-243 | requests the tool-change pose (x, y and its own z) at the given speed; the command is the full one move_canvas_position builds for it (configured angles and mvacc, no wait); the statuses are the arm's answers to set_position calls of that command sent on a clear register, which it is from a non-UNKNOWN, non-DOCKED state with a clear register; ends TOOL_CHANGE |
| RobotService.RobotService.MoveDockedPosition | src/services/robot_service.py:246-255 | requests the centred move first exactly when not CENTRED; the docked request (x, −y of the docked pose, raised, SLOW, wait) follows; the statuses are the arm's answers to set_position calls of the docked command, which is sent from CENTRED with a clear register; ends DOCKED |
| RobotService.RecentreDepthCorrected | src/services/robot_service.py:178-183 | with DOCKED marked CALCULATING first, a move nests at most one re-centring |
| RobotService.DockedRecursesForever | src/services/robot_service.py:182-183 | as written, a move from DOCKED nests re-centring moves without end |
| RobotService.UnknownRecentresOnce | src/services/robot_service.py:178-180 | from UNKNOWN the written guard nests exactly one re-centring |
| RobotService.RePlanCountCorrected | src/services/robot_service.py:92-115 | counting before re-centring keeps the RE_PLAN_PATH count within the budget of three |
| RobotService.RePlanCountExceedsBudget | src/services/robot_service.py:92-115 | as written, three nested Kinematic Error reads with two retries spent leave the count at five |
| RobotService.RePlanCountUnbounded | src/services/robot_service.py:92-115 | as written, n nested Kinematic Error reads count n recoveries, for every n |
| RobotService.RePlanCountCorrectedStops | src/services/robot_service.py:92-115 | counted first, the same three reads stop at three |
| MovementService.Trunc | src/services/movement_service.py:32 | int() truncates toward zero, for positive and negative values |
| MovementService.Clamp | src/services/movement_service.py:29-30 | the value when in range, otherwise the nearer bound |
| MovementService.ToCanvasAxis | src/services/movement_service.py:26-32 | with whole-number bounds the result is within them; an in-range value moves by less than one |
| MovementService.MapPixelToCanvas | src/services/movement_service.py:18-32 | with whole-number bounds every mapped pixel is within the canvas bounds |
| MovementService.ScaleFactor | src/services/movement_service.py:55-61 | defined exactly when both drawing dimensions are nonzero; then it is the smaller of the two axis ratios |
| MovementService.SimplifySegment | src/services/movement_service.py:36-47 | segments of fewer than three points are kept; longer ones go to the polyline approximation |
| MovementService.LoweredTrace | src/services/movement_service.py:76-78 | one lowered move per point, in order |
| MovementService.SegmentMovesShape | src/services/movement_service.py:71-80 | a stroke becomes a raised move to its first point, one lowered move per point, and the last lowered move repeated |
| MovementService.SegmentMovesByIndex | src/services/movement_service.py:71-80 | any sequence with that shape is exactly the stroke's moves |
| MovementService.SegmentJob | src/services/movement_service.py:63-80 | a stroke issues no moves exactly when it is empty |
| MovementService.JobMovesStep | src/services/movement_service.py:63-80 | the moves of the first k+1 strokes are those of the first k followed by stroke k's |
| MovementService.JobMovesAppend | src/services/movement_service.py:63-80 | the moves of two stroke lists laid end to end are their moves laid end to end |
| MovementService.NoMovesIffAllEmpty | src/services/movement_service.py:63-65 | a job issues no moves exactly when every stroke is empty |
| MovementService.JobMovesWithinBounds | src/services/movement_service.py:18-32 | with whole-number bounds every move of a job is within the canvas |
| MovementService.SegmentMovesWithinBounds | src/services/movement_service.py:71-80 | with whole-number bounds every move of a stroke is within the canvas |
| MovementService.ScaleScenario | src/services/movement_service.py:18-61 | on the default 180×380 canvas a 200×100 drawing scales by 0.9, and pixel (100, 50) maps to (325, −145) |
| MovementService.MovementService.Move | src/services/movement_service.py:74 | the move is issued and the robot service logs exactly that call next (NORMAL speed, defaults elsewhere); every issued move stays in the robot's request log, in issue order |
| MovementService.MovementService.FollowVectors | src/services/movement_service.py:50-80 | fails exactly when a drawing dimension is zero (the division fails), issuing nothing; otherwise issues exactly the job's moves at the computed scale, each of which the robot service logged, in order |
| MovementService.MovementService.FollowSegment | src/services/movement_service.py:67-80 | issues exactly the moves of the (optionally simplified) stroke, each logged by the robot service, in order |
| MovementService.MovementService.TraceSegment | src/services/movement_service.py:71-80 | issues exactly the raised start, the lowered trace and the repeated last move, each logged by the robot service, in order |
| Raster.InkPoints | src/services/path_planning_service.py:98 | the set of exactly the nonzero pixels |
| Raster.DistSq | src/services/path_planning_service.py:79-81 | the squared distance is non-negative and zero exactly for equal points |
| Contours.NearestIndex | src/services/path_planning_service.py:76-84 | the index of a point at least distance, the first such in list order |
| Contours.Remove | src/services/path_planning_service.py:73 | removing one position leaves the rest of the multiset |
| Contours.Chain | src/services/path_planning_service.py:75-91 | the points walked and those left over are a permutation of the input, and every step of the walk is at most √5 |
| Contours.StepsCons | src/services/path_planning_service.py:86-88 | a point within √5 of a stroke's start extends the stroke |
| Contours.ChainStopsTooFar | src/services/path_planning_service.py:86-91 | a walk stops with points left only when the nearest of them is farther than √5 from where it ended |
| Contours.Reorder | src/services/path_planning_service.py:57-93 | no strokes exactly for no points; the first stroke starts at the first point; every stroke is non-empty with steps of at most √5 |
| Contours.Kept | src/services/path_planning_service.py:103-106 | keeps exactly the strokes of two or more points |
| Contours.Emitted | src/services/path_planning_service.py:100-106 | each emitted stroke has two or more points and steps of at most √5 |
| Contours.AllEmitted | src/services/path_planning_service.py:96-107 | each emitted stroke has two or more points and steps of at most √5 |
| Contours.ConnectedSnoc | src/services/path_planning_service.py:49-54 | appending a pixel adjacent to an earlier one keeps a component connected |
| Contours.ReorderPermutation | src/services/path_planning_service.py:57-93 | the strokes together are a permutation of the points |
| Contours.KeptSub | src/services/path_planning_service.py:103-106 | the kept strokes hold a sub-multiset of all strokes' points |
| Contours.EmittedSub | src/services/path_planning_service.py:100-106 | the strokes emitted for a component use only its points, each at most once |
| Contours.AllEmittedSub | src/services/path_planning_service.py:96-107 | the strokes emitted for the scan use only the components' points |
| Contours.DisjointNoRepeats | src/services/path_planning_service.py:96-107 | disjoint repeat-free components flatten without repeats |
| Contours.EmittedProperties | src/services/path_planning_service.py:27-107 | every emitted stroke has two or more points, steps of at most √5, only ink, and no pixel is emitted twice |
| Contours.NoInkNoContours | src/services/path_planning_service.py:96-107 | there are no components exactly when there is no ink, and then no strokes |
| Contours.ChainAlongLine | src/services/path_planning_service.py:75-91 | from one end of a diagonal line the walk takes the whole line in order |
| Contours.LineInOneComponent | src/services/path_planning_service.py:40-55 | a diagonal line of ink lies in a single component |
| Contours.OnlyOneComponent | src/services/path_planning_service.py:96-99 | when the ink is one diagonal line there is exactly one component |
| Contours.ReorderLine | src/services/path_planning_service.py:57-93 | a diagonal component starting at its end reorders into the line itself |
| Contours.DiagonalScenario | src/services/path_planning_service.py:27-107 | a mask whose ink is the diagonal (0,0)..(n−1,n−1), n > 1, vectorises to exactly that one stroke |
| Contours.DiagonalImageScenario | src/services/path_planning_service.py:27-107 | a 10×10 mask with five diagonal ink pixels vectorises to [(0,0), (1,1), (2,2), (3,3), (4,4)] |
| EraserCoverage.MarkedPoints | src/services/path_planning_service.py:131 | the set of exactly the pixels with a positive value |
| EraserCoverage.OwnFootprint | src/services/path_planning_service.py:143-150 | with both sides at least 2, a center's rectangle covers the center itself |
| EraserCoverage.ThinFootprintEmpty | src/services/path_planning_service.py:143-150 | with a side below 2, the covered slice is empty |
| EraserCoverage.CoveredSnoc | src/services/path_planning_service.py:152-156 | after one more center a pixel is covered exactly when it was covered already or lies in the new rectangle |
| EraserCoverage.CoveredPrefix | src/services/path_planning_service.py:152-156 | coverage by the first n centers does not depend on later centers |
| EraserCoverage.ChosenPrefix | src/services/path_planning_service.py:152-170 | a valid pick stays valid when later centers are added |
| EraserCoverage.PlanNoRepeats | src/services/path_planning_service.py:152-170 | no center is chosen twice |
| EraserCoverage.PlanBound | src/services/path_planning_service.py:152-170 | a plan has at most one center per ink pixel |
| EraserCoverage.NearestExists | src/services/path_planning_service.py:169-170 | a non-empty set of pixels has a nearest element to any point |
| EraserCoverage.Corners | src/services/path_planning_service.py:155 | one top-left corner per center, at half the width and height up and to the left |
| EraserCoverage.PlanStart | src/services/path_planning_service.py:135-141 | before the first pick every ink pixel remains |
| EraserCoverage.PlanStep | src/services/path_planning_service.py:152-170 | a valid pick followed by the uncovered filter keeps the planning invariant and strictly shrinks what remains |
| EraserCoverage.PlanDone | src/services/path_planning_service.py:165-166 | once nothing remains the picks are a complete plan |
| EraserCoverage.PlanNone | src/services/path_planning_service.py:131-133 | with no ink the empty plan is complete |
| PathPlanning.AdjacentIsNeighbour | src/services/path_planning_service.py:36-38 | every 8-adjacent pixel is one of the eight offsets |
| PathPlanning.CandidatesSound | src/services/path_planning_service.py:50-54 | every pushed cell is in the grid, unvisited, ink, and adjacent |
| PathPlanning.CandidatesComplete | src/services/path_planning_service.py:50-54 | every adjacent unvisited ink cell is pushed |
| PathPlanning.PushNeighbours | src/services/path_planning_service.py:50-54 | pushes exactly the adjacent unvisited ink cells in offset order, and every such cell is pushed |
| PathPlanning.Dfs | src/services/path_planning_service.py:40-55 | the component starts at the seed, holds no repeats, is connected, holds only unvisited ink, is closed under adjacency, and is exactly what gets marked visited |
| PathPlanning.Nearest | src/services/path_planning_service.py:76-84 | the loop finds the first index at least distance, and that distance |
| PathPlanning.WalkStroke | src/services/path_planning_service.py:71-91 | the inner loop builds exactly the walk from the start and leaves exactly its leftover points |
| PathPlanning.ReorderContour | src/services/path_planning_service.py:57-93 | the loop computes exactly the reordering |
| PathPlanning.AppendKept | src/services/path_planning_service.py:103-106 | appends exactly the strokes of two or more points |
| PathPlanning.ScanStart | src/services/path_planning_service.py:31-33 | before the scan no component has been found and nothing is seen |
| PathPlanning.ScanSkip | src/services/path_planning_service.py:98 | a pixel that is blank or already seen can be passed over |
| PathPlanning.RowEnd | src/services/path_planning_service.py:96-97 | finishing a row moves the cursor to the next row |
| PathPlanning.ScanDone | src/services/path_planning_service.py:96-107 | after the last row the components found are the components of the mask |
| PathPlanning.ScanStep | src/services/path_planning_service.py:98-99 | a component found from a fresh seed keeps the scan invariant |
| PathPlanning.ScanPixel | src/services/path_planning_service.py:98-106 | one pixel of the scan keeps the invariant and the strokes emitted so far |
| PathPlanning.ScanLine | src/services/path_planning_service.py:97-106 | one row of the scan keeps the invariant and the strokes emitted so far |
| PathPlanning.ExtractContours | src/services/path_planning_service.py:27-107 | the strokes are those emitted for the mask's components, each has two or more points and steps of at most √5, holds only ink, no pixel appears twice, and no ink gives no strokes |
| PathPlanning.MarkCovered | src/services/path_planning_service.py:143-150 | marks exactly the center's clipped rectangle and keeps the rest |
| PathPlanning.Uncovered | src/services/path_planning_service.py:158-163 | exactly the remaining pixels not yet covered |
| PathPlanning.StampAndFilter | src/services/path_planning_service.py:156-163 | after marking one more center, the grid is the coverage of all centers and exactly the uncovered pixels remain |
| PathPlanning.PlanEraserCenters | src/services/path_planning_service.py:122-172 | the centers are a complete plan (empty exactly with no ink, each pick valid, all ink covered), and the rectangles are their top-left corners |
| PathPlanning.BindMethodCall | src/services/path_planning_service.py:117 | a call through self binds exactly when the function takes one more parameter than the call passes |
| PathPlanning.BindStaticCall | src/services/path_planning_service.py:117 | a plain call binds exactly when the parameter and argument counts agree |
| PathPlanning.EraserCallAsWritten | src/services/path_planning_service.py:117-122 | as written the call fails: it takes 3 positional arguments but 4 were given |
| PathPlanning.EraserCallCorrected | src/services/path_planning_service.py:117-122 | called as a plain function, the three arguments bind |
| PathPlanning.PlanErasePath | src/services/path_planning_service.py:109-120 | one vector, the complete plan for an 80×40 eraser |

## Left out

- calibrate_corners (src/services/robot_service.py:257-278) only chains moves the model already covers; it is not part of this model.
- The no-arm branch of _check_and_handle_errors is left out, because the service always holds an arm once it is built.
- Exceptions raised inside _attempt_recovery are not modelled. The arm's methods return normally.
- Console messages, time.sleep and the timestamp of each error record are not modelled. The error record keeps code, warning code and context.
- RobotService.RobotService.MarkMovingAndCheck: the pre-dispatch error-check context is "move_canvas_position" rather than the coordinates formatted after it, because float formatting is not modelled. The retry's context does carry its status code.
- RobotService.RobotService.DispatchMove: a nested move (a re-centring, or the slow re-centre of a RE_PLAN_PATH recovery) also sends set_position calls. The contracts say which arm calls carry this move's command and status, not how many other calls lie between them.
- RobotService.RobotService.constructor: the first request is the slow centred move, but whether it reaches the arm depends on the fault registers the clean calls leave, which are the arm's choice.
- RobotErrorHandler.Classify: the message text is stated only for code 0 and for unknown codes. For known codes only the action and the recovery decision are stated.
- The retry key is the pair (code, action) rather than the string "code_action". The two are in one-to-one correspondence.
- The RESTART_ROBOT branch of _attempt_recovery is modelled. It is never reached from _check_and_handle_errors, because the retry policy refuses that action.
- The arm's set_position status, and the fault registers every arm call leaves, are the arm's free choice. The vendor SDK is not part of this model.
- MovementService.SimplifySegment: cv2.approxPolyDP is a parameter. The job lemmas assume only that it keeps a non-empty segment non-empty.
- MovementService.ScaleFactor and MovementService.MapPixelToCanvas compute with exact reals rather than floating point.
- MovementService.MovementService.FollowVectors: the division by a zero dimension raises in the source. Here it is an explicit failure that issues no moves. The drawing's shape is passed as two numbers.
- MovementService.MovementService.Move: the return codes of the robot moves are ignored, as the source ignores them.
- The image, camera, image-generation and AI services, and the drawing tool, are not part of this model.
- convert_image_to_vectors only calls _extract_contours, which is modelled as PathPlanning.ExtractContours.
- binarize_drawing (src/utils/image_utils.py) is not part of this model. PathPlanning.PlanErasePath takes the binarised mask.
- PathPlanning.ExtractContours: the order in which the depth-first search lists a component's pixels is not given by a reference function. The contract fixes each component's pixel set, its first pixel, its connectivity and closure, and the strokes as a function of that listing.
- PathPlanning.PlanEraserCenters requires both rectangle sides to be at least 2 whenever there is ink. With a thinner rectangle the covered slice is empty and the source loops forever.
- PathPlanning.PlanEraserCenters: the remaining pixels are a set, and a tie for nearest may be broken by any minimiser. The source takes the first minimiser in the set's iteration order.
- PathPlanning.PlanEraserCenters: squared distance replaces cdist's Euclidean distance. Both give the same order.
- PathPlanning.MarkCovered writes the slice assignment as a nested loop over the clipped rectangle.
- The robot configuration's ip, speed and max_step fields are not read by the modelled code and are left out.
- The RobotService class uses the corrected DOCKED re-centring and the corrected RE_PLAN_PATH ordering (see Findings). The behaviour as written is modelled by the as-written members.

## Findings

| source | as written | input that shows it | evidently intended | confidence | as-written member | corrected member |
|---|---|---|---|---|---|---|
| src/services/robot_service.py:182-183 | from DOCKED, move_canvas_position re-centres without changing the state, so the nested move sees DOCKED again and re-centres again | any move while the state is DOCKED, for example the next drawing after move_docked_position | mark the state CALCULATING before re-centring, as the UNKNOWN branch does | high, not executed | RobotService.DockedRecursesForever | RobotService.RobotService.RecentreIfNeeded |
| src/services/robot_service.py:92-115 | the RE_PLAN_PATH recovery re-centres before it increments the retry count, so the nested move's error check still sees the old count | error register reading 21 at three nested checks with two RE_PLAN_PATH retries already spent: the count ends at 5, past the limit of 3 | count the attempt before re-centring | medium, not executed | RobotService.RePlanCountExceedsBudget | RobotService.RobotService.RePlanRecovery |
| src/services/path_planning_service.py:117-122 | _plan_eraser_centers is declared without self but called through self | any call of plan_erase_path: it takes 3 positional arguments but 4 were given | a static function called with the three arguments | high, not executed | PathPlanning.EraserCallAsWritten | PathPlanning.PlanErasePath |
