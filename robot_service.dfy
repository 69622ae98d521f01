/**
 * The robot pose state machine and fault recovery (src/services/robot_service.py).
 *
 * The vendor SDK's arm object is an actuator class: two fault registers, a log
 * of every command sent, and status codes it chooses freely. The service
 * methods call each other reentrantly: a move first re-centres from UNKNOWN or
 * DOCKED, and a RE_PLAN_PATH recovery re-centres too. That reentrancy ends
 * because every RE_PLAN_PATH recovery spends one unit of a finite retry budget
 * before it re-centres.
 */
module RobotService {
  import opened Wrappers
  import opened Models
  import RobotConfig
  import opened RobotErrorHandler

  /** The arguments of one set_position command. */
  datatype Command = Command(x: real, y: real, z: real, roll: real, pitch: real, yaw: real,
                             speed: real, mvacc: real, wait: bool)

  /**
   * One command sent to the arm; a move is logged with the status the arm
   * answered and the value the error register held when it was sent.
   */
  datatype ArmCall = SetPosition(cmd: Command, status: int, fault: int) | CleanError | CleanWarn | MotionEnable(enable: bool) | SetState(state: int)

  /** The arguments of one move_canvas_position call, as the caller passed them. */
  datatype MoveCall = MoveCall(x: real, y: real, z: Option<real>, raised: bool, speed: SpeedType,
                               roll: Option<real>, pitch: Option<real>, yaw: Option<real>, wait: bool)

  /** The actuator: its fault registers and the log of commands it has received. */
  class Arm {
    var errorCode: int
    var warnCode: int
    var calls: seq<ArmCall>

    constructor (errorCode0: int, warnCode0: int)
      ensures errorCode == errorCode0 && warnCode == warnCode0 && calls == []
    {
      errorCode, warnCode, calls := errorCode0, warnCode0, [];
    }

    /** Sends a move; the arm answers with any status and may raise or clear faults. */
    method SetPosition(cmd: Command) returns (status: int)
      modifies this
      ensures calls == old(calls) + [ArmCall.SetPosition(cmd, status, old(errorCode))]
    {
      status := *;
      calls := calls + [ArmCall.SetPosition(cmd, status, errorCode)];
      errorCode := *;
      warnCode := *;
    }

    /** Asks the arm to clear its error; the fault registers it leaves are up to the arm. */
    method CleanError()
      modifies this
      ensures calls == old(calls) + [ArmCall.CleanError]
    {
      errorCode := *;
      warnCode := *;
      calls := calls + [ArmCall.CleanError];
    }

    /** Asks the arm to clear its warning; the fault registers it leaves are up to the arm. */
    method CleanWarn()
      modifies this
      ensures calls == old(calls) + [ArmCall.CleanWarn]
    {
      errorCode := *;
      warnCode := *;
      calls := calls + [ArmCall.CleanWarn];
    }

    /** Enables or disables motion; the fault registers it leaves are up to the arm. */
    method MotionEnable(enable: bool)
      modifies this
      ensures calls == old(calls) + [ArmCall.MotionEnable(enable)]
    {
      errorCode := *;
      warnCode := *;
      calls := calls + [ArmCall.MotionEnable(enable)];
    }

    /** Sets the controller state; the fault registers it leaves are up to the arm. */
    method SetState(state: int)
      modifies this
      ensures calls == old(calls) + [ArmCall.SetState(state)]
    {
      errorCode := *;
      warnCode := *;
      calls := calls + [ArmCall.SetState(state)];
    }
  }

  // ---------------------------------------------------------------------------
  // The retry budget that bounds reentrant re-centring

  /** The codes whose recovery action is RE_PLAN_PATH. */
  const RePlanCodeSet: set<int> := {21, 22, 25}

  /** RE_PLAN_PATH recoveries still allowed for one code. */
  function Left(counts: map<RetryKey, nat>, code: int): nat
  {
    var n := RetryCount(counts, RetryKey(code, RePlanPath));
    if n >= MaxRetries then 0 else MaxRetries - n
  }

  /** RE_PLAN_PATH recoveries still allowed, over every code that can ask for one. */
  function RePlanBudget(counts: map<RetryKey, nat>): nat
  {
    Left(counts, 21) + Left(counts, 22) + Left(counts, 25)
  }

  /** No retry-action key has been counted past the budget. */
  ghost predicate WithinBudget(counts: map<RetryKey, nat>)
  {
    forall k :: k in counts && IsRetryAction(k.action) ==> counts[k] <= MaxRetries
  }

  /** Counts never fall, so the budget never grows. */
  lemma BudgetMonotone(a: map<RetryKey, nat>, b: map<RetryKey, nat>)
    requires forall k :: RetryCount(a, k) <= RetryCount(b, k)
    ensures RePlanBudget(b) <= RePlanBudget(a)
  {
    assert RetryCount(a, RetryKey(21, RePlanPath)) <= RetryCount(b, RetryKey(21, RePlanPath));
    assert RetryCount(a, RetryKey(22, RePlanPath)) <= RetryCount(b, RetryKey(22, RePlanPath));
    assert RetryCount(a, RetryKey(25, RePlanPath)) <= RetryCount(b, RetryKey(25, RePlanPath));
  }

  /** Counting one RE_PLAN_PATH recovery that the policy allowed spends one unit of the budget. */
  lemma BudgetDrops(counts: map<RetryKey, nat>, code: int)
    requires code in RePlanCodeSet
    requires RetryCount(counts, RetryKey(code, RePlanPath)) < MaxRetries
    ensures RePlanBudget(Bumped(counts, RetryKey(code, RePlanPath))) < RePlanBudget(counts)
  {
  }

  lemma PrefixTransitive<T>(a: seq<T>, b: seq<T>, c: seq<T>)
    requires a <= b && b <= c
    ensures a <= c
  {
  }

  // ---------------------------------------------------------------------------
  // What a move sent to the arm

  /**
   * The statuses a move returned are the arm's answers to set_position calls
   * of `cmd` logged since `from`, each sent while the error register read
   * zero: one dispatch, or a dispatch followed by a retry that is the last
   * call in the log.
   */
  ghost predicate Sent(calls: seq<ArmCall>, from: nat, cmd: Command, statuses: seq<int>)
  {
    && from <= |calls| && |statuses| <= 2
    && (|statuses| == 1 ==> SetPosition(cmd, statuses[0], 0) in calls[from..])
    && (|statuses| == 2 ==>
          && from < |calls|
          && SetPosition(cmd, statuses[0], 0) in calls[from..|calls| - 1]
          && calls[|calls| - 1] == SetPosition(cmd, statuses[1], 0))
  }

  /** A call logged since `from` stays logged there as the log grows. */
  lemma InLater(a: seq<ArmCall>, b: seq<ArmCall>, from: nat, c: ArmCall)
    requires a <= b && from <= |a| && c in a[from..]
    ensures c in b[from..]
  {
    var t :| from <= t < |a| && a[t] == c;
    assert b[t] == a[t];
  }

  /** A call logged since a later position is logged since an earlier one. */
  lemma InEarlier(calls: seq<ArmCall>, from: nat, later: nat, upto: nat, c: ArmCall)
    requires from <= later <= upto <= |calls| && c in calls[later..upto]
    ensures c in calls[from..upto]
  {
    var t :| later <= t < upto && calls[t] == c;
    assert calls[from..upto][t - from] == c;
  }

  /** A first dispatch logged since `from` stays the one status sent as the log grows. */
  lemma SentOnce(before: seq<ArmCall>, after: seq<ArmCall>, from: nat, cmd: Command, first: int)
    requires from <= |before| && before <= after && SetPosition(cmd, first, 0) in before[from..]
    ensures Sent(after, from, cmd, [first])
  {
    InLater(before, after, from, SetPosition(cmd, first, 0));
  }

  /** A first dispatch logged since `from`, then a retry as the last call, are the two statuses sent. */
  lemma SentTwice(before: seq<ArmCall>, after: seq<ArmCall>, from: nat, cmd: Command, first: int, retry: int)
    requires from <= |before| && SetPosition(cmd, first, 0) in before[from..]
    requires |after| > 0 && before <= after[..|after| - 1] && after[|after| - 1] == SetPosition(cmd, retry, 0)
    ensures Sent(after, from, cmd, [first, retry])
  {
    InLater(before, after[..|after| - 1], from, SetPosition(cmd, first, 0));
    assert after[..|after| - 1][from..] == after[from..|after| - 1];
  }

  /** Sent since a later position implies sent since an earlier one. */
  lemma SentSince(calls: seq<ArmCall>, from: nat, later: nat, cmd: Command, statuses: seq<int>)
    requires from <= later && Sent(calls, later, cmd, statuses)
    ensures Sent(calls, from, cmd, statuses)
  {
    if |statuses| == 1 {
      InEarlier(calls, from, later, |calls|, SetPosition(cmd, statuses[0], 0));
    } else if |statuses| == 2 {
      InEarlier(calls, from, later, |calls| - 1, SetPosition(cmd, statuses[0], 0));
    }
  }

  class RobotService {
    const config: RobotConfig.RobotConfig
    const arm: Arm
    const errorHandler: XArmErrorHandler
    /** Every move_canvas_position call made on the service, oldest first, nested ones included. */
    ghost var requested: seq<MoveCall>

    ghost predicate Valid()
      reads this, config, errorHandler
    {
      config.Valid() && WithinBudget(errorHandler.retryCount)
    }

    /**
     * What every operation of the service leaves behind: the state trace, the
     * request log, the arm's log and the error history only grow, and retry
     * counts never fall.
     */
    twostate predicate Progress()
      reads this, config, arm, errorHandler
    {
      && old(config.stateTrace) <= config.stateTrace
      && old(requested) <= requested
      && old(arm.calls) <= arm.calls
      && old(errorHandler.errorHistory) <= errorHandler.errorHistory
      && (forall k :: RetryCount(old(errorHandler.retryCount), k) <= RetryCount(errorHandler.retryCount, k))
      && RePlanBudget(errorHandler.retryCount) <= RePlanBudget(old(errorHandler.retryCount))
    }

    /** The `i`-th move requested during the operation is `call`. */
    twostate predicate RequestedAt(i: nat, call: MoveCall)
      reads this
    {
      |old(requested)| + i < |requested| && requested[|old(requested)| + i] == call
    }

    /** The request that re-centres the arm at `speed`. */
    function CentredCall(speed: SpeedType): MoveCall
    {
      MoveCall(config.centredPosition.x, config.centredPosition.y, None, true, speed, None, None, None, false)
    }

    /** The request that parks the arm: slow, synchronous, at the docked pose with Y negated. */
    function DockedCall(): MoveCall
    {
      MoveCall(config.dockedPosition.x, -config.dockedPosition.y, None, true, Slow, None, None, None, true)
    }

    /**
     * The set_position arguments of move_canvas_position: omitted Z is the
     * mounted tool's raised or lowered height, omitted angles the configured
     * ones, and the speed the preset's value.
     */
    function MoveCommand(x: real, y: real, z: Option<real>, raised: bool, speed: SpeedType,
                         roll: Option<real>, pitch: Option<real>, yaw: Option<real>, wait: bool): (c: Command)
      reads this, config`currentAttachment, config`speeds
      requires config.currentAttachment in config.attachmentZHeights && Normal in config.speeds
      ensures c.x == x && c.y == y && c.wait == wait && c.mvacc == config.mvacc
      ensures c.z == (if z.Some? then z.value
                      else if raised then config.attachmentZHeights[config.currentAttachment].raised
                      else config.attachmentZHeights[config.currentAttachment].lowered)
      ensures c.roll == (if roll.Some? then roll.value else config.roll)
      ensures c.pitch == (if pitch.Some? then pitch.value else config.pitch)
      ensures c.yaw == (if yaw.Some? then yaw.value else config.yaw)
      ensures c.speed == (if speed in config.speeds then config.speeds[speed] else config.speeds[Normal])
    {
      Command(x, y, if z.Some? then z.value else if raised then config.ZRaised() else config.ZLowered(),
              if roll.Some? then roll.value else config.roll,
              if pitch.Some? then pitch.value else config.pitch,
              if yaw.Some? then yaw.value else config.yaw,
              config.GetSpeed(speed), config.mvacc, wait)
    }

    /** The move that re-centres the arm at `speed`: raised, at the centred pose, asynchronous. */
    function CentredCommand(speed: SpeedType): Command
      reads this, config`currentAttachment, config`speeds
      requires config.currentAttachment in config.attachmentZHeights && Normal in config.speeds
    {
      MoveCommand(config.centredPosition.x, config.centredPosition.y, None, true, speed, None, None, None, false)
    }

    /**
     * Connects: clears faults, enables motion, sets state 0 and re-centres
     * slowly, so the first move requested of the service is the slow centred one.
     */
    constructor (config: RobotConfig.RobotConfig, arm: Arm)
      requires config.Valid()
      modifies config, arm
      ensures Valid()
      ensures this.config == config && this.arm == arm
      ensures |old(arm.calls)| + 4 <= |arm.calls|
      ensures arm.calls[..|old(arm.calls)| + 4] == old(arm.calls) + [CleanWarn, CleanError, MotionEnable(true), SetState(0)]
      ensures requested != [] && requested[0] == CentredCall(Slow)
      ensures config.currentState == Centred
    {
      this.config := config;
      this.arm := arm;
      errorHandler := new XArmErrorHandler();
      requested := [];
      new;
      arm.CleanWarn();
      arm.CleanError();
      arm.MotionEnable(true);
      arm.SetState(0);
      ghost var connected := arm.calls;
      var _, _ := MoveCentredPosition(Slow);
      assert arm.calls[..|old(arm.calls)| + 4] == connected[..|old(arm.calls)| + 4];
    }

    function GetRobotState(): (r: RobotState)
      reads this, config
      ensures r == config.currentState
    {
      config.currentState
    }

    method SetRobotState(state: RobotState)
      requires Valid()
      modifies config`currentState, config`stateTrace
      ensures Valid()
      ensures config.currentState == state && config.stateTrace == old(config.stateTrace) + [state]
    {
      config.currentState := state;
      config.stateTrace := config.stateTrace + [state];
    }

    function GetAttachment(): (r: AttachmentType)
      reads this, config
      ensures r == config.currentAttachment
    {
      config.currentAttachment
    }

    /** Mounts `a` when it has Z heights; otherwise fails and keeps the mounted tool. */
    method ChangeAttachment(a: AttachmentType) returns (result: Outcome<string>)
      requires Valid()
      modifies config`currentAttachment
      ensures Valid()
      ensures result.Pass? <==> a in config.attachmentZHeights
      ensures config.currentAttachment == if result.Pass? then a else old(config.currentAttachment)
    {
      result := config.SetAttachment(a);
    }

    method GetErrorSummary() returns (summary: string)
      ensures summary == ErrorSummary(errorHandler.errorHistory)
    {
      summary := errorHandler.GetErrorSummary();
    }

    /**
     * Reads the error register. Zero: true, nothing else happens. A fault the
     * policy does not allow to recover: logged, false, no remediation. Otherwise
     * the fault's recovery runs (clear the faults, count the attempt, and for
     * RE_PLAN_PATH re-centre slowly); in every case the result is whether the
     * register reads zero at the end.
     */
    method CheckAndHandleErrors(context: string) returns (ok: bool, ghost replanned: bool)
      requires Valid()
      modifies this`requested, config`currentState, config`stateTrace, arm, errorHandler`errorHistory, errorHandler`retryCount
      decreases RePlanBudget(errorHandler.retryCount), 2
      ensures Valid() && Progress()
      ensures ok <==> arm.errorCode == 0
      ensures old(arm.errorCode) == 0 ==> ok && !replanned && unchanged(this, arm, errorHandler, config)
      ensures old(arm.errorCode) != 0 && LookupErrorInfo(old(arm.errorCode)).Some? ==>
                |old(errorHandler.errorHistory)| < |errorHandler.errorHistory|
                && errorHandler.errorHistory[|old(errorHandler.errorHistory)|]
                   == ErrorRecord(old(arm.errorCode), old(arm.warnCode), context)
      ensures old(arm.errorCode) != 0 && LookupErrorInfo(old(arm.errorCode)).None? ==>
                errorHandler.errorHistory == old(errorHandler.errorHistory)
      ensures old(arm.errorCode) != 0 && !Recoverable(old(errorHandler.retryCount), old(arm.errorCode)) ==>
                !ok && !replanned && unchanged(this, arm, config) && errorHandler.retryCount == old(errorHandler.retryCount)
      ensures old(arm.errorCode) != 0 && Recoverable(old(errorHandler.retryCount), old(arm.errorCode)) ==>
                var key := RetryKey(old(arm.errorCode), LookupErrorInfo(old(arm.errorCode)).value.Recovery());
                && old(arm.calls) + [CleanError, CleanWarn] <= arm.calls
                && RetryCount(old(errorHandler.retryCount), key) + 1 <= RetryCount(errorHandler.retryCount, key)
                && (replanned <==> key.action == RePlanPath)
                && (replanned ==> RequestedAt(0, CentredCall(Slow)))
                && (!replanned ==>
                      && arm.calls == old(arm.calls) + [CleanError, CleanWarn] && requested == old(requested)
                      && errorHandler.retryCount == Bumped(old(errorHandler.retryCount), key))
      ensures replanned ==> config.currentState == Centred
      ensures !replanned ==> config.currentState == old(config.currentState)
    {
      var errorCode := arm.errorCode;
      var warnCode := arm.warnCode;
      if errorCode == 0 {
        return true, false;
      }
      var d := errorHandler.HandleError(errorCode, warnCode, context);
      if !d.canAutoRecover {
        return false, false;
      }
      RePlanCodes(errorCode);
      ok, replanned := AttemptRecovery(d.action, errorCode, context);
    }

    /**
     * Runs one recovery. The retry actions and RESTART_ROBOT clear the faults,
     * count the attempt and report whether the register reads zero; RE_PLAN_PATH
     * also re-centres slowly, after counting. Any other action fails and changes nothing.
     */
    method AttemptRecovery(action: RecoveryAction, errorCode: int, context: string)
      returns (ok: bool, ghost replanned: bool)
      requires Valid()
      requires action == RePlanPath ==> errorCode in RePlanCodeSet
      requires IsRetryAction(action) ==> RetryCount(errorHandler.retryCount, RetryKey(errorCode, action)) < MaxRetries
      modifies this`requested, config`currentState, config`stateTrace, arm, errorHandler`errorHistory, errorHandler`retryCount
      decreases RePlanBudget(errorHandler.retryCount), 1
      ensures Valid() && Progress()
      ensures replanned <==> action == RePlanPath
      ensures action != RePlanPath ==> requested == old(requested)
      ensures action !in {AutoRetry, ReduceSpeed, RePlanPath, RestartRobot} ==>
                !ok && unchanged(arm, config, errorHandler)
      ensures action == AutoRetry || action == ReduceSpeed ==>
                arm.calls == old(arm.calls) + [CleanError, CleanWarn]
                && errorHandler.retryCount == Bumped(old(errorHandler.retryCount), RetryKey(errorCode, action))
                && unchanged(config) && errorHandler.errorHistory == old(errorHandler.errorHistory)
      ensures action == RestartRobot ==>
                arm.calls == old(arm.calls) + [CleanError, CleanWarn, MotionEnable(true), SetState(0)]
                && errorHandler.retryCount == Bumped(old(errorHandler.retryCount), RetryKey(errorCode, action))
                && unchanged(config) && errorHandler.errorHistory == old(errorHandler.errorHistory)
      ensures action == RePlanPath ==>
                old(arm.calls) + [CleanError, CleanWarn] <= arm.calls
                && RetryCount(old(errorHandler.retryCount), RetryKey(errorCode, action)) + 1
                   <= RetryCount(errorHandler.retryCount, RetryKey(errorCode, action))
                && RequestedAt(0, CentredCall(Slow))
                && config.currentState == Centred
      ensures ok <==> action in {AutoRetry, ReduceSpeed, RePlanPath, RestartRobot} && arm.errorCode == 0
    {
      replanned := action == RePlanPath;
      if action == RePlanPath {
        RePlanRecovery(errorCode);
        ok := arm.errorCode == 0;
      } else if action in {AutoRetry, ReduceSpeed, RestartRobot} {
        ok := ResetRecovery(action, errorCode);
      } else {
        ok := false;
      }
    }

    /**
     * The recoveries that only reset the arm: clear the faults (and for
     * RESTART_ROBOT re-enable motion and set state 0), count the attempt, and report
     * whether the register reads zero.
     */
    method ResetRecovery(action: RecoveryAction, errorCode: int) returns (ok: bool)
      requires Valid()
      requires action in {AutoRetry, ReduceSpeed, RestartRobot}
      requires IsRetryAction(action) ==> RetryCount(errorHandler.retryCount, RetryKey(errorCode, action)) < MaxRetries
      modifies arm, errorHandler`retryCount
      ensures Valid() && Progress()
      ensures arm.calls == old(arm.calls) + [CleanError, CleanWarn]
                           + (if action == RestartRobot then [MotionEnable(true), SetState(0)] else [])
      ensures errorHandler.retryCount == Bumped(old(errorHandler.retryCount), RetryKey(errorCode, action))
      ensures ok <==> arm.errorCode == 0
    {
      arm.CleanError();
      arm.CleanWarn();
      if action == RestartRobot {
        arm.MotionEnable(true);
        arm.SetState(0);
      }
      BudgetMonotone(errorHandler.retryCount, Bumped(errorHandler.retryCount, RetryKey(errorCode, action)));
      errorHandler.IncrementRetryCount(errorCode, action);
      ok := arm.errorCode == 0;
    }

    /**
     * The RE_PLAN_PATH recovery: clear the faults, count the attempt, then
     * re-centre slowly to get the arm out of the position that failed.
     */
    method RePlanRecovery(errorCode: int)
      requires Valid()
      requires errorCode in RePlanCodeSet
      requires RetryCount(errorHandler.retryCount, RetryKey(errorCode, RePlanPath)) < MaxRetries
      modifies this`requested, config`currentState, config`stateTrace, arm, errorHandler`errorHistory, errorHandler`retryCount
      decreases RePlanBudget(errorHandler.retryCount), 0
      ensures Valid() && Progress()
      ensures old(arm.calls) + [CleanError, CleanWarn] <= arm.calls
      ensures RetryCount(old(errorHandler.retryCount), RetryKey(errorCode, RePlanPath)) + 1
              <= RetryCount(errorHandler.retryCount, RetryKey(errorCode, RePlanPath))
      ensures RequestedAt(0, CentredCall(Slow))
      ensures config.currentState == Centred
    {
      arm.CleanError();
      arm.CleanWarn();
      ghost var cleaned := arm.calls;
      BudgetDrops(errorHandler.retryCount, errorCode);
      errorHandler.IncrementRetryCount(errorCode, RePlanPath);
      var _, _ := MoveCentredPosition(Slow);
      assert cleaned <= arm.calls;
    }

    /**
     * Moves to (x, y). The call is logged as a request. From UNKNOWN or DOCKED
     * the arm first re-centres (NORMAL and SLOW speed respectively), having
     * marked the state CALCULATING; then the move is dispatched, and the statuses
     * returned are the arm's answers to the set_position calls of `cmd`.
     */
    method MoveCanvasPosition(x: real, y: real, z: Option<real>, raised: bool, speed: SpeedType,
                              roll: Option<real>, pitch: Option<real>, yaw: Option<real>, wait: bool)
      returns (ret: int, cmd: Command, ghost statuses: seq<int>, ghost movingAt: nat, ghost lastCheckReplanned: bool)
      requires Valid()
      modifies this`requested, config`currentState, config`stateTrace, arm, errorHandler`errorHistory, errorHandler`retryCount
      decreases RePlanBudget(errorHandler.retryCount), if config.currentState in {Unknown, Docked} then 11 else 7
      ensures Valid() && Progress()
      ensures RequestedAt(0, MoveCall(x, y, z, raised, speed, roll, pitch, yaw, wait))
      ensures cmd == old(MoveCommand(x, y, z, raised, speed, roll, pitch, yaw, wait))
      // re-centring first
      ensures old(config.currentState) == Unknown ==> RequestedAt(1, CentredCall(Normal))
      ensures old(config.currentState) == Docked ==> RequestedAt(1, CentredCall(Slow))
      // the state trace
      ensures |old(config.stateTrace)| <= movingAt < |config.stateTrace|
      ensures config.stateTrace[movingAt] == Moving
      ensures old(config.currentState) !in {Unknown, Docked} ==> movingAt == |old(config.stateTrace)|
      ensures old(config.currentState) in {Unknown, Docked} ==>
                && movingAt > |old(config.stateTrace)| + 1
                && config.stateTrace[|old(config.stateTrace)|] == Calculating
                && config.stateTrace[|old(config.stateTrace)| + 1] == Moving
                && config.stateTrace[movingAt - 1] == Centred
      ensures config.currentState == if lastCheckReplanned then Centred else if statuses == [] then Moving else Paused
      // dispatch and return value
      ensures Sent(arm.calls, |old(arm.calls)|, cmd, statuses)
      ensures old(config.currentState) !in {Unknown, Docked} && old(arm.errorCode) == 0 ==> statuses != []
      ensures old(config.currentState) !in {Unknown, Docked} && old(arm.errorCode) != 0
              && !Recoverable(old(errorHandler.retryCount), old(arm.errorCode)) ==>
                statuses == [] && arm.calls == old(arm.calls) && config.currentState == Moving
      ensures statuses == [] ==> ret == -1 && arm.errorCode != 0
      ensures |statuses| >= 1 && statuses[0] == 0 ==> |statuses| == 1 && ret == 0
      ensures |statuses| == 1 && statuses[0] != 0 ==> ret == statuses[0]
      ensures |statuses| == 2 ==> statuses[0] != 0 && ret == statuses[1]
    {
      requested := requested + [MoveCall(x, y, z, raised, speed, roll, pitch, yaw, wait)];
      cmd := MoveCommand(x, y, z, raised, speed, roll, pitch, yaw, wait);
      ret, statuses, movingAt, lastCheckReplanned := RecentreAndDispatch(cmd);
    }

    /** The body of move_canvas_position after the request: the re-centring guard, then the dispatch. */
    method RecentreAndDispatch(cmd: Command)
      returns (ret: int, ghost statuses: seq<int>, ghost movingAt: nat, ghost lastCheckReplanned: bool)
      requires Valid()
      modifies this`requested, config`currentState, config`stateTrace, arm, errorHandler`errorHistory, errorHandler`retryCount
      decreases RePlanBudget(errorHandler.retryCount), if config.currentState in {Unknown, Docked} then 10 else 6
      ensures Valid() && Progress()
      ensures old(config.currentState) == Unknown ==> RequestedAt(0, CentredCall(Normal))
      ensures old(config.currentState) == Docked ==> RequestedAt(0, CentredCall(Slow))
      ensures |old(config.stateTrace)| <= movingAt < |config.stateTrace|
      ensures config.stateTrace[movingAt] == Moving
      ensures old(config.currentState) !in {Unknown, Docked} ==> movingAt == |old(config.stateTrace)|
      ensures old(config.currentState) in {Unknown, Docked} ==>
                && movingAt > |old(config.stateTrace)| + 1
                && config.stateTrace[|old(config.stateTrace)|] == Calculating
                && config.stateTrace[|old(config.stateTrace)| + 1] == Moving
                && config.stateTrace[movingAt - 1] == Centred
      ensures config.currentState == if lastCheckReplanned then Centred else if statuses == [] then Moving else Paused
      ensures Sent(arm.calls, |old(arm.calls)|, cmd, statuses)
      ensures old(config.currentState) !in {Unknown, Docked} && old(arm.errorCode) == 0 ==> statuses != []
      ensures old(config.currentState) !in {Unknown, Docked} && old(arm.errorCode) != 0
              && !Recoverable(old(errorHandler.retryCount), old(arm.errorCode)) ==>
                statuses == [] && arm.calls == old(arm.calls) && config.currentState == Moving
      ensures statuses == [] ==> ret == -1 && arm.errorCode != 0
      ensures |statuses| >= 1 && statuses[0] == 0 ==> |statuses| == 1 && ret == 0
      ensures |statuses| == 1 && statuses[0] != 0 ==> ret == statuses[0]
      ensures |statuses| == 2 ==> statuses[0] != 0 && ret == statuses[1]
    {
      ghost var start := arm.calls;
      RecentreIfNeeded();
      ghost var ready := config.stateTrace;
      ghost var centred := arm.calls;
      ghost var recentred := requested;
      movingAt := |ready|;
      ret, statuses, lastCheckReplanned := DispatchMove(cmd);
      PrefixTransitive(old(config.stateTrace), ready, config.stateTrace);
      PrefixTransitive(old(requested), recentred, requested);
      SentSince(arm.calls, |start|, |centred|, cmd, statuses);
    }

    /**
     * The guard at the head of move_canvas_position: from UNKNOWN (NORMAL speed)
     * or DOCKED (SLOW speed) mark the state CALCULATING and request the centred
     * move; from any other state do nothing.
     */
    method RecentreIfNeeded()
      requires Valid()
      modifies this`requested, config`currentState, config`stateTrace, arm, errorHandler`errorHistory, errorHandler`retryCount
      decreases RePlanBudget(errorHandler.retryCount), if config.currentState in {Unknown, Docked} then 9 else 0
      ensures Valid() && Progress()
      ensures old(config.currentState) == Unknown ==> RequestedAt(0, CentredCall(Normal))
      ensures old(config.currentState) == Docked ==> RequestedAt(0, CentredCall(Slow))
      ensures old(config.currentState) !in {Unknown, Docked} ==> unchanged(this, config, arm, errorHandler)
      ensures old(config.currentState) in {Unknown, Docked} ==>
                && |old(config.stateTrace)| + 2 < |config.stateTrace|
                && config.stateTrace[|old(config.stateTrace)|] == Calculating
                && config.stateTrace[|old(config.stateTrace)| + 1] == Moving
                && config.currentState == Centred
    {
      if config.currentState == Unknown {
        SetRobotState(Calculating);
        var _, _ := MoveCentredPosition(Normal);
      } else if config.currentState == Docked {
        SetRobotState(Calculating);
        var _, _ := MoveCentredPosition(Slow);
      }
    }

    /**
     * The dispatch half of move_canvas_position: MOVING for the pre-dispatch
     * check (-1 and no set_position if it fails), then the dispatch.
     */
    method DispatchMove(cmd: Command) returns (ret: int, ghost statuses: seq<int>, ghost lastCheckReplanned: bool)
      requires Valid()
      modifies this`requested, config`currentState, config`stateTrace, arm, errorHandler`errorHistory, errorHandler`retryCount
      decreases RePlanBudget(errorHandler.retryCount), 5
      ensures Valid() && Progress()
      ensures |old(config.stateTrace)| < |config.stateTrace| && config.stateTrace[|old(config.stateTrace)|] == Moving
      ensures config.currentState == if lastCheckReplanned then Centred else if statuses == [] then Moving else Paused
      ensures Sent(arm.calls, |old(arm.calls)|, cmd, statuses)
      ensures old(arm.errorCode) == 0 ==> statuses != []
      ensures old(arm.errorCode) != 0 && !Recoverable(old(errorHandler.retryCount), old(arm.errorCode)) ==>
                statuses == [] && arm.calls == old(arm.calls) && !lastCheckReplanned && config.currentState == Moving
      ensures statuses == [] ==> ret == -1 && arm.errorCode != 0
      ensures |statuses| >= 1 && statuses[0] == 0 ==> |statuses| == 1 && ret == 0
      ensures |statuses| == 1 && statuses[0] != 0 ==> ret == statuses[0]
      ensures |statuses| == 2 ==> statuses[0] != 0 && ret == statuses[1]
    {
      var precheck, replanned := MarkMovingAndCheck();
      if !precheck {
        return -1, [], replanned;
      }
      ghost var marked := config.stateTrace;
      ghost var checked := arm.calls;
      ret, statuses, lastCheckReplanned := SendWithRetry(cmd);
      PrefixTransitive(old(config.stateTrace), marked, config.stateTrace);
      SentSince(arm.calls, |old(arm.calls)|, |checked|, cmd, statuses);
    }

    /**
     * The rest of move_canvas_position once the pre-dispatch check passed, so
     * the register reads zero: send the command, PAUSED, and one retry of a
     * failed dispatch when its fault recovers.
     */
    method SendWithRetry(cmd: Command) returns (ret: int, ghost statuses: seq<int>, ghost lastCheckReplanned: bool)
      requires Valid() && arm.errorCode == 0
      modifies this`requested, config`currentState, config`stateTrace, arm, errorHandler`errorHistory, errorHandler`retryCount
      decreases RePlanBudget(errorHandler.retryCount), 4
      ensures Valid() && Progress()
      ensures |old(config.stateTrace)| < |config.stateTrace| && config.stateTrace[|old(config.stateTrace)|] == Paused
      ensures config.currentState == if lastCheckReplanned then Centred else Paused
      ensures Sent(arm.calls, |old(arm.calls)|, cmd, statuses) && statuses != []
      ensures statuses[0] == 0 ==> |statuses| == 1 && ret == 0 && arm.calls == old(arm.calls) + [SetPosition(cmd, 0, 0)]
      ensures |statuses| == 1 && statuses[0] != 0 ==> ret == statuses[0]
      ensures |statuses| == 2 ==> statuses[0] != 0 && ret == statuses[1]
    {
      ret := arm.SetPosition(cmd);
      statuses := [ret];
      SetRobotState(Paused);
      lastCheckReplanned := false;
      ghost var paused := config.stateTrace;
      ghost var dispatched := arm.calls;
      assert dispatched[|old(arm.calls)|] == SetPosition(cmd, statuses[0], 0);
      assert SetPosition(cmd, statuses[0], 0) in dispatched[|old(arm.calls)|..];
      if ret == 0 {
        SentOnce(dispatched, arm.calls, |old(arm.calls)|, cmd, 0);
        return;
      }
      ghost var retried;
      ret, retried, lastCheckReplanned := RetryFailedDispatch(cmd, ret);
      if retried {
        SentTwice(dispatched, arm.calls, |old(arm.calls)|, cmd, statuses[0], ret);
        statuses := statuses + [ret];
      } else {
        SentOnce(dispatched, arm.calls, |old(arm.calls)|, cmd, statuses[0]);
      }
      PrefixTransitive(old(config.stateTrace), paused, config.stateTrace);
    }

    /** MOVING, then the pre-dispatch error check, whose result is whether the register reads zero. */
    method MarkMovingAndCheck() returns (ok: bool, ghost replanned: bool)
      requires Valid()
      modifies this`requested, config`currentState, config`stateTrace, arm, errorHandler`errorHistory, errorHandler`retryCount
      decreases RePlanBudget(errorHandler.retryCount), 3
      ensures Valid() && Progress()
      ensures ok <==> arm.errorCode == 0
      ensures old(arm.errorCode) == 0 ==> ok && unchanged(this, arm, errorHandler)
      ensures old(arm.errorCode) != 0 && !Recoverable(old(errorHandler.retryCount), old(arm.errorCode)) ==>
                !ok && !replanned && unchanged(this, arm)
      ensures old(arm.errorCode) != 0 && LookupErrorInfo(old(arm.errorCode)).Some? ==>
                |old(errorHandler.errorHistory)| < |errorHandler.errorHistory|
                && errorHandler.errorHistory[|old(errorHandler.errorHistory)|]
                   == ErrorRecord(old(arm.errorCode), old(arm.warnCode), "move_canvas_position")
      ensures |old(config.stateTrace)| < |config.stateTrace| && config.stateTrace[|old(config.stateTrace)|] == Moving
      ensures config.currentState == if replanned then Centred else Moving
    {
      SetRobotState(Moving);
      ghost var marked := config.stateTrace;
      ok, replanned := CheckAndHandleErrors("move_canvas_position");
      PrefixTransitive(old(config.stateTrace), marked, config.stateTrace);
    }

    /**
     * The tail of move_canvas_position after a dispatch answered `status`: the
     * fault is checked under a context naming that status and, if the register
     * then reads zero, the same command is sent once more (on that clear
     * register) and its status returned; otherwise `status` is returned with
     * the fault still in the register.
     */
    method RetryFailedDispatch(cmd: Command, status: int) returns (ret: int, ghost retried: bool, ghost replanned: bool)
      requires Valid()
      modifies this`requested, config`currentState, config`stateTrace, arm, errorHandler`errorHistory, errorHandler`retryCount
      decreases RePlanBudget(errorHandler.retryCount), 3
      ensures Valid() && Progress()
      ensures old(arm.errorCode) == 0 ==> retried && arm.calls == old(arm.calls) + [SetPosition(cmd, ret, 0)]
      ensures old(arm.errorCode) != 0 && !Recoverable(old(errorHandler.retryCount), old(arm.errorCode)) ==>
                !retried && arm.calls == old(arm.calls)
      ensures old(arm.errorCode) != 0 && LookupErrorInfo(old(arm.errorCode)).Some? ==>
                |old(errorHandler.errorHistory)| < |errorHandler.errorHistory|
                && errorHandler.errorHistory[|old(errorHandler.errorHistory)|]
                   == ErrorRecord(old(arm.errorCode), old(arm.warnCode), "set_position failed with code " + IntToString(status))
      ensures !retried ==> ret == status && arm.errorCode != 0
      ensures retried ==> |arm.calls| > 0 && arm.calls[|arm.calls| - 1] == SetPosition(cmd, ret, 0)
                          && old(arm.calls) <= arm.calls[..|arm.calls| - 1]
      ensures config.currentState == if replanned then Centred else old(config.currentState)
    {
      var recovered;
      recovered, replanned := CheckAndHandleErrors("set_position failed with code " + IntToString(status));
      if !recovered {
        return status, false, replanned;
      }
      ghost var checked := arm.calls;
      ret := arm.SetPosition(cmd);
      retried := true;
      assert arm.calls[..|arm.calls| - 1] == checked;
    }

    /** Requests the centred pose and ends CENTRED, whatever the move returned. */
    method MoveCentredPosition(speed: SpeedType) returns (ghost cmd: Command, ghost statuses: seq<int>)
      requires Valid()
      modifies this`requested, config`currentState, config`stateTrace, arm, errorHandler`errorHistory, errorHandler`retryCount
      decreases RePlanBudget(errorHandler.retryCount), if config.currentState in {Unknown, Docked} then 12 else 8
      ensures Valid() && Progress()
      ensures RequestedAt(0, CentredCall(speed))
      ensures cmd == old(CentredCommand(speed))
      ensures Sent(arm.calls, |old(arm.calls)|, cmd, statuses)
      ensures old(config.currentState) !in {Unknown, Docked} && old(arm.errorCode) == 0 ==> statuses != []
      ensures config.currentState == Centred && |old(config.stateTrace)| < |config.stateTrace|
      ensures old(config.currentState) !in {Unknown, Docked} ==> config.stateTrace[|old(config.stateTrace)|] == Moving
      ensures old(config.currentState) in {Unknown, Docked} ==>
                config.stateTrace[|old(config.stateTrace)|] == Calculating
    {
      var _, c, s, _, _ := MoveCanvasPosition(config.centredPosition.x, config.centredPosition.y, None, true, speed,
                                              None, None, None, false);
      cmd, statuses := c, s;
      SetRobotState(Centred);
    }

    /** Requests the tool-change pose at its own Z and ends TOOL_CHANGE, whatever the move returned. */
    method MoveChangeToolPosition(speed: SpeedType) returns (ghost cmd: Command, ghost statuses: seq<int>)
      requires Valid()
      modifies this`requested, config`currentState, config`stateTrace, arm, errorHandler`errorHistory, errorHandler`retryCount
      ensures Valid() && Progress()
      ensures RequestedAt(0, MoveCall(config.changeToolPosition.x, config.changeToolPosition.y,
                                      Some(config.changeToolPosition.z), true, speed, None, None, None, false))
      ensures cmd == old(MoveCommand(config.changeToolPosition.x, config.changeToolPosition.y,
                                     Some(config.changeToolPosition.z), true, speed, None, None, None, false))
      ensures Sent(arm.calls, |old(arm.calls)|, cmd, statuses)
      ensures old(config.currentState) !in {Unknown, Docked} && old(arm.errorCode) == 0 ==> statuses != []
      ensures config.currentState == ToolChange
    {
      var _, c, s, _, _ := MoveCanvasPosition(config.changeToolPosition.x, config.changeToolPosition.y,
                                              Some(config.changeToolPosition.z), true, speed,
                                              None, None, None, false);
      cmd, statuses := c, s;
      SetRobotState(ToolChange);
    }

    /**
     * Parks the arm: re-centres first unless already CENTRED, then requests the
     * slow, synchronous move to the docked pose with its Y negated, and ends DOCKED.
     */
    method MoveDockedPosition(speed: SpeedType) returns (ghost recentred: bool, ghost cmd: Command, ghost statuses: seq<int>)
      requires Valid()
      modifies this`requested, config`currentState, config`stateTrace, arm, errorHandler`errorHistory, errorHandler`retryCount
      ensures Valid() && Progress()
      ensures recentred <==> old(config.currentState) != Centred
      ensures recentred ==> RequestedAt(0, CentredCall(speed))
      ensures !recentred ==> RequestedAt(0, DockedCall())
      ensures DockedCall() in requested[|old(requested)|..]
      ensures cmd == old(MoveCommand(config.dockedPosition.x, -config.dockedPosition.y, None, true, Slow,
                                     None, None, None, true))
      ensures Sent(arm.calls, |old(arm.calls)|, cmd, statuses)
      ensures old(arm.errorCode) == 0 && !recentred ==> statuses != []
      ensures config.currentState == Docked
    {
      recentred := false;
      ghost var start := arm.calls;
      if config.currentState != Centred {
        var _, _ := MoveCentredPosition(speed);
        recentred := true;
      }
      ghost var before := requested;
      ghost var centred := arm.calls;
      var _, c, s, _, _ := MoveCanvasPosition(config.dockedPosition.x, -config.dockedPosition.y, None, true, Slow,
                                              None, None, None, true);
      cmd, statuses := c, s;
      SetRobotState(Docked);
      assert requested[|before|] == DockedCall();
      assert DockedCall() in requested[|old(requested)|..];
      SentSince(arm.calls, |start|, |centred|, cmd, statuses);
    }
  }

  // ---------------------------------------------------------------------------
  // Two reentrancy faults of the service as written, and their corrections

  /**
   * How many re-centring moves a move started in `state` nests, following only
   * the state guard of move_canvas_position as written: from UNKNOWN the state
   * becomes CALCULATING before re-centring, but from DOCKED it stays DOCKED, so
   * the nested move takes the same branch again. None means `fuel` nested calls
   * did not suffice.
   */
  function RecentreDepthAsWritten(state: RobotState, fuel: nat): Option<nat>
    decreases fuel
  {
    if state != Unknown && state != Docked then Some(0)
    else if fuel == 0 then None
    else
      var nested := if state == Unknown then Calculating else Docked;
      match RecentreDepthAsWritten(nested, fuel - 1)
      case None => None
      case Some(d) => Some(d + 1)
  }

  /** The same guard with DOCKED also marked CALCULATING before re-centring. */
  function RecentreDepthCorrected(state: RobotState, fuel: nat): (r: Option<nat>)
    ensures fuel >= 1 ==> r.Some? && r.value <= 1
    decreases fuel
  {
    if state != Unknown && state != Docked then Some(0)
    else if fuel == 0 then None
    else
      match RecentreDepthCorrected(Calculating, fuel - 1)
      case None => None
      case Some(d) => Some(d + 1)
  }

  /** As written, a move from DOCKED never stops re-centring, however deep the stack. */
  lemma {:induction false} DockedRecursesForever(fuel: nat)
    ensures RecentreDepthAsWritten(Docked, fuel) == None
  {
    if fuel > 0 {
      DockedRecursesForever(fuel - 1);
    }
  }

  /** From UNKNOWN the source is already correct: one re-centring move. */
  lemma UnknownRecentresOnce()
    ensures RecentreDepthAsWritten(Unknown, 1) == Some(1)
  {
  }

  /**
   * The RE_PLAN_PATH count for one code after a run of error checks, when each
   * check reads the next register value from `registers`, as written: the recovery
   * re-centres, whose move checks again with the count not yet incremented, and
   * the increment happens only when the nested check returns.
   */
  function RePlanCountAsWritten(count: nat, code: int, registers: seq<int>): nat
    decreases |registers|
  {
    if registers == [] || registers[0] != code || count >= MaxRetries then count
    else RePlanCountAsWritten(count, code, registers[1..]) + 1
  }

  /** The same run with the attempt counted before re-centring. */
  function RePlanCountCorrected(count: nat, code: int, registers: seq<int>): (r: nat)
    requires count <= MaxRetries
    ensures count <= r <= MaxRetries
    decreases |registers|
  {
    if registers == [] || registers[0] != code || count >= MaxRetries then count
    else RePlanCountCorrected(count + 1, code, registers[1..])
  }

  function Repeat(code: int, n: nat): (r: seq<int>)
    ensures |r| == n && forall i :: 0 <= i < n ==> r[i] == code
  {
    if n == 0 then [] else [code] + Repeat(code, n - 1)
  }

  /** Three Kinematic Error reads with two retries spent already push the count to five. */
  lemma RePlanCountExceedsBudget()
    ensures RePlanCountAsWritten(2, 21, [21, 21, 21, 0]) == 5
  {
  }

  /** As written, n nested Kinematic Error reads count n recoveries: no bound at all. */
  lemma {:induction false} RePlanCountUnbounded(n: nat)
    ensures RePlanCountAsWritten(0, 21, Repeat(21, n)) == n
  {
    if n > 0 {
      assert Repeat(21, n)[1..] == Repeat(21, n - 1);
      RePlanCountUnbounded(n - 1);
    }
  }

  /** Counting first, the same three reads stop at the budget. */
  lemma RePlanCountCorrectedStops()
    ensures RePlanCountCorrected(2, 21, [21, 21, 21, 0]) == 3
  {
  }
}
