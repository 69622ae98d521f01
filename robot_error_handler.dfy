/**
 * Fault classification and the retry budget (src/utils/robot_error_handler.py).
 * The two code tables and the auto-recovery policy are functions; the handler
 * object keeps an append-only error history and a retry-count map.
 */
module RobotErrorHandler {
  import opened Wrappers

  datatype ErrorSeverity = Low | Medium | High | Critical

  datatype RecoveryAction =
    AutoRetry | ReduceSpeed | RePlanPath | ManualIntervention | RestartRobot | ContactSupport | EmergencyStop

  /** Which of the two code tables an entry was found in. */
  datatype Table = ControllerTable | JointTable

  /**
   * A table entry, named by its table and code; its columns are read through
   * the accessors below. A missing description or action text is the empty string.
   */
  datatype ErrorInfo = ErrorInfo(table: Table, code: int)
  {
    function Title(): string
    {
      if table == ControllerTable then ControllerTitle(code) else JointTitle
    }

    function Description(): string
    {
      if table == ControllerTable then ControllerDescription(code) else JointDescription
    }

    function Action(): string
    {
      if table == ControllerTable then ControllerAction(code) else JointAction
    }

    function Severity(): ErrorSeverity
    {
      if table == ControllerTable then ControllerClass(code).0 else High
    }

    function Recovery(): RecoveryAction
    {
      if table == ControllerTable then ControllerClass(code).1 else RestartRobot
    }
  }

  /** A logged fault. The wall-clock timestamp of the source is not modelled. */
  datatype ErrorRecord = ErrorRecord(errorCode: int, warnCode: int, context: string)

  /** The retry-count key: the source joins the code and the action's value into one string. */
  datatype RetryKey = RetryKey(code: int, action: RecoveryAction)

  /** (can_auto_recover, message, recovery_action) as handle_error returns them. */
  datatype Decision = Decision(canAutoRecover: bool, message: string, action: RecoveryAction)

  const MaxRetries: nat := 3
  const RecentDepth: nat := 5

  /** The codes the controller error table lists. */
  const ControllerCodes: set<int> := {1, 2, 3, 10, 11, 12, 13, 14, 15, 16, 17, 18, 19, 21, 22, 23, 24, 25, 26, 27, 35, 38}

  /**
   * The controller table's severity and recovery columns. Codes it lacks get the
   * defaults the handler falls back to (MEDIUM, MANUAL_INTERVENTION).
   */
  function ControllerClass(code: int): (ErrorSeverity, RecoveryAction)
  {
    match code
    case 1 => (High, ManualIntervention)
    case 2 => (High, ManualIntervention)
    case 3 => (High, ManualIntervention)
    case 10 => (Medium, RestartRobot)
    case 11 => (Medium, RestartRobot)
    case 12 => (Medium, RestartRobot)
    case 13 => (Medium, RestartRobot)
    case 14 => (Medium, RestartRobot)
    case 15 => (Medium, RestartRobot)
    case 16 => (Medium, RestartRobot)
    case 17 => (Medium, RestartRobot)
    case 18 => (Medium, ManualIntervention)
    case 19 => (Medium, ManualIntervention)
    case 21 => (Low, RePlanPath)
    case 22 => (Medium, RePlanPath)
    case 23 => (Medium, ManualIntervention)
    case 24 => (Low, ReduceSpeed)
    case 25 => (Low, RePlanPath)
    case 26 => (Critical, ContactSupport)
    case 27 => (Low, AutoRetry)
    case 35 => (Medium, ManualIntervention)
    case 38 => (Critical, EmergencyStop)
    case _ => (Medium, ManualIntervention)
  }

  /** The controller table's title column; a code it lacks is titled "Error N". */
  function ControllerTitle(code: int): string
  {
    match code
    case 1 => "Emergency Stop Button Pressed"
    case 2 => "Emergency IO Triggered"
    case 3 => "Three-state Switch Emergency Stop"
    case 10 => "Servo Motor Error"
    case 11 => "Servo Motor 1 Error"
    case 12 => "Servo Motor 2 Error"
    case 13 => "Servo Motor 3 Error"
    case 14 => "Servo Motor 4 Error"
    case 15 => "Servo Motor 5 Error"
    case 16 => "Servo Motor 6 Error"
    case 17 => "Servo Motor 7 Error"
    case 18 => "Force Torque Sensor Communication Error"
    case 19 => "End Effector Communication Error"
    case 21 => "Kinematic Error"
    case 22 => "Self-Collision Error"
    case 23 => "Joints Angle Exceed Limit"
    case 24 => "Speed Exceeds Limit"
    case 25 => "Planning Error"
    case 26 => "Linux RT Error"
    case 27 => "Command Reply Error"
    case 35 => "Safety Boundary Limit"
    case 38 => "Abnormal Joint Angle"
    case _ => "Error " + IntToString(code)
  }

  /** The controller table's description column; codes 11 to 17 have none. */
  function ControllerDescription(code: int): string
  {
    match code
    case 1 => "The Emergency Stop Button on the xArm Controller is pushed in to stop"
    case 2 => "The Emergency IO of the Control Box is triggered"
    case 3 => "The Emergency Stop Button of the Three-state Switch is pressed"
    case 10 => "General servo motor error"
    case 18 => "Force Torque Sensor Communication Error"
    case 19 => "End Effector Communication Error"
    case 21 => "Kinematic Error - robot cannot reach the target position"
    case 22 => "The robot is about to collide with itself"
    case 23 => "Joint angles are outside the allowed range"
    case 24 => "Movement speed is too high"
    case 25 => "Path planning failed"
    case 26 => "Linux Real-Time system error"
    case 27 => "Command reply timeout or error"
    case 35 => "The xArm reaches the safety boundary"
    case 38 => "Joint angles are in an abnormal state"
    case _ => ""
  }

  /** The controller table's action column; codes 11 to 17 have none. */
  function ControllerAction(code: int): string
  {
    match code
    case 1 => "Please release the Emergency Stop Button, and then re-enable the robot"
    case 2 => "Please ground the 2 EIs of the Control Box, and then re-enable the robot"
    case 3 => "Please release the Emergency Stop Button of the Three-state Switch, and then re-enable the robot"
    case 10 => "Check motor connections and restart robot"
    case 18 => "Please check whether the force torque sensor is installed"
    case 19 => "Please check whether end effector is installed and the baud rate setting is correct"
    case 21 => "Please re-plan the path or adjust the target position"
    case 22 => "Please re-plan the path. If the robot reports the self-collision error continually, please turn on the manual mode and drag the robotic back to the normal area"
    case 23 => "Please go to the \"Live Control\" page and press the \"INITIAL POSITION\" button to let the robot go to the initial position"
    case 24 => "Please check if the xArm is out of working range, or reduce the speed and acceleration values"
    case 25 => "Please re-plan the path or reduce the speed"
    case 26 => "Please contact technical support"
    case 27 => "Check connection and retry"
    case 35 => "Please move the xArm to the safety boundary after turning on the Manual mode on the Live Control interface"
    case 38 => "Please stop the xArm by pressing the Emergency Stop Button on the Control Box and then contact technical support"
    case _ => ""
  }

  /** The controller error table, one entry per listed code. */
  function ControllerErrorInfo(code: int): (r: Option<ErrorInfo>)
    ensures r.Some? <==> code in ControllerCodes
    ensures r.Some? ==> r.value == ErrorInfo(ControllerTable, code)
  {
    if code in ControllerCodes then Some(ErrorInfo(ControllerTable, code)) else None
  }

  /** The joint error table's single entry, code 21. */
  const JointTitle: string := "Driver IC Initialization Error"
  const JointDescription: string := "Driver IC initialization failed"
  const JointAction: string :=
    "Please restart the xArm with the Emergency Stop Button on the xArm Controller. If multiple reboots are not working, please contact technical support"

  /** The joint error table. */
  function JointErrorInfo(code: int): (r: Option<ErrorInfo>)
    ensures r.Some? <==> code == 21
    ensures r.Some? ==> r.value == ErrorInfo(JointTable, 21)
  {
    if code == 21 then Some(ErrorInfo(JointTable, 21)) else None
  }

  /** The controller table is consulted first; the joint table only for codes it lacks. */
  function LookupErrorInfo(code: int): (r: Option<ErrorInfo>)
    ensures ControllerErrorInfo(code).Some? ==> r == ControllerErrorInfo(code)
    ensures ControllerErrorInfo(code).None? ==> r == JointErrorInfo(code)
    ensures r.Some? <==> code in ControllerCodes
  {
    match ControllerErrorInfo(code)
    case Some(info) => Some(info)
    case None => JointErrorInfo(code)
  }

  /** Only codes 26 and 38 are CRITICAL. */
  lemma CriticalCodes(code: int)
    ensures (LookupErrorInfo(code).Some? && LookupErrorInfo(code).value.Severity() == Critical) <==> code == 26 || code == 38
  {
  }

  /** Exactly three codes are classified RE_PLAN_PATH. */
  lemma RePlanCodes(code: int)
    ensures (LookupErrorInfo(code).Some? && LookupErrorInfo(code).value.Recovery() == RePlanPath) <==> code in {21, 22, 25}
  {
  }

  /** Code 21 is in both tables; the controller entry wins. */
  lemma Code21IsKinematic()
    ensures JointErrorInfo(21).Some? && ControllerErrorInfo(21).Some?
    ensures LookupErrorInfo(21).value.Title() == "Kinematic Error"
    ensures LookupErrorInfo(21).value.Severity() == Low && LookupErrorInfo(21).value.Recovery() == RePlanPath
  {
  }

  // ---------------------------------------------------------------------------
  // Retry budget

  function RetryCount(counts: map<RetryKey, nat>, key: RetryKey): nat
  {
    if key in counts then counts[key] else 0
  }

  /** The counts after increment_retry_count on `key`. */
  function Bumped(counts: map<RetryKey, nat>, key: RetryKey): (r: map<RetryKey, nat>)
    ensures RetryCount(r, key) == RetryCount(counts, key) + 1
    ensures forall k :: k != key ==> RetryCount(r, k) == RetryCount(counts, k)
    ensures r.Keys == counts.Keys + {key}
  {
    counts[key := RetryCount(counts, key) + 1]
  }

  predicate IsRetryAction(a: RecoveryAction)
  {
    a == AutoRetry || a == ReduceSpeed || a == RePlanPath
  }

  /**
   * The auto-recovery policy: never for CRITICAL faults; for the three retry
   * actions only while the (code, action) count is below the budget; never otherwise.
   */
  function CanAutoRecover(counts: map<RetryKey, nat>, code: int, severity: ErrorSeverity,
                          action: RecoveryAction): (r: bool)
    ensures severity == Critical ==> !r
    ensures !IsRetryAction(action) ==> !r
    ensures severity != Critical && IsRetryAction(action) ==>
              (r <==> RetryCount(counts, RetryKey(code, action)) < MaxRetries)
  {
    if severity == Critical then false
    else if IsRetryAction(action) then RetryCount(counts, RetryKey(code, action)) < MaxRetries
    else false
  }

  // ---------------------------------------------------------------------------
  // Messages

  function DigitChar(d: nat): char
    requires d < 10
  {
    "0123456789"[d]
  }

  /** Decimal text of a non-negative number. */
  function NatToString(n: nat): string
  {
    if n < 10 then [DigitChar(n)] else NatToString(n / 10) + [DigitChar(n % 10)]
  }

  /** Decimal text of an integer, as Python's str() writes it. */
  function IntToString(n: int): string
  {
    if n < 0 then "-" + NatToString(-n) else NatToString(n)
  }

  /** The multi-line message for a known fault. */
  function FaultMessage(info: ErrorInfo, context: string): string
  {
    "\U{274C} " + info.Title()
    + (if info.Description() != "" then "\n   Description: " + info.Description() else "")
    + (if info.Action() != "" then "\n   Action: " + info.Action() else "")
    + (if context != "" then "\n   Context: " + context else "")
  }

  /** A known fault that the policy lets the service recover from automatically. */
  predicate Recoverable(counts: map<RetryKey, nat>, code: int)
  {
    LookupErrorInfo(code).Some?
    && CanAutoRecover(counts, code, LookupErrorInfo(code).value.Severity(), LookupErrorInfo(code).value.Recovery())
  }

  /** What handle_error returns for a fault code, given the current retry counts. */
  function Classify(counts: map<RetryKey, nat>, code: int, context: string): (d: Decision)
    ensures code == 0 ==> d == Decision(true, "No error", AutoRetry)
    ensures code != 0 && LookupErrorInfo(code).None? ==>
              d == Decision(false, "Unknown error code: " + IntToString(code), ContactSupport)
    ensures code != 0 && LookupErrorInfo(code).Some? ==> d.action == LookupErrorInfo(code).value.Recovery()
    ensures code != 0 ==> (d.canAutoRecover <==> Recoverable(counts, code))
  {
    if code == 0 then Decision(true, "No error", AutoRetry)
    else
      match LookupErrorInfo(code)
      case None => Decision(false, "Unknown error code: " + IntToString(code), ContactSupport)
      case Some(info) =>
        Decision(CanAutoRecover(counts, code, info.Severity(), info.Recovery()),
                 FaultMessage(info, context), info.Recovery())
  }

  /** A CRITICAL fault is never auto-recoverable, however few retries were spent. */
  lemma CriticalNeverAutoRecovers(counts: map<RetryKey, nat>, code: int, context: string)
    requires code == 26 || code == 38
    ensures !Classify(counts, code, context).canAutoRecover
  {
  }

  /** Code 24 with no retries spent: LOW, REDUCE_SPEED, auto-recoverable. */
  lemma SpeedLimitScenario(context: string)
    ensures LookupErrorInfo(24).value.Severity() == Low
    ensures Classify(map[], 24, context).action == ReduceSpeed
    ensures Classify(map[], 24, context).canAutoRecover
  {
  }

  /**
   * For a fault with a retry action and no CRITICAL severity, the first three
   * occurrences are auto-recoverable and the fourth is not once three
   * recoveries have been counted.
   */
  lemma {:induction false} BudgetOfThree(counts: map<RetryKey, nat>, code: int, context: string)
    requires LookupErrorInfo(code).Some?
    requires LookupErrorInfo(code).value.Severity() != Critical && IsRetryAction(LookupErrorInfo(code).value.Recovery())
    requires RetryKey(code, LookupErrorInfo(code).value.Recovery()) !in counts
    ensures var key := RetryKey(code, LookupErrorInfo(code).value.Recovery());
            && Classify(counts, code, context).canAutoRecover
            && Classify(Bumped(counts, key), code, context).canAutoRecover
            && Classify(Bumped(Bumped(counts, key), key), code, context).canAutoRecover
            && !Classify(Bumped(Bumped(Bumped(counts, key), key), key), code, context).canAutoRecover
  {
    var key := RetryKey(code, LookupErrorInfo(code).value.Recovery());
    assert RetryCount(Bumped(Bumped(Bumped(counts, key), key), key), key) == 3;
  }

  // ---------------------------------------------------------------------------
  // Summary

  /** Every code the handler logs is in the controller table, so the summary never falls back to "Error N". */
  lemma SummaryTitleMatchesClassifier(code: int)
    requires LookupErrorInfo(code).Some?
    ensures ControllerTitle(code) == LookupErrorInfo(code).value.Title()
  {
  }

  function SummaryLine(r: ErrorRecord): string
  {
    "  - " + ControllerTitle(r.errorCode) + " (Code: " + IntToString(r.errorCode) + ")\n"
  }

  /** The lines for `records`, oldest first. */
  function SummaryLines(records: seq<ErrorRecord>): string
  {
    if records == [] then ""
    else SummaryLines(records[..|records| - 1]) + SummaryLine(records[|records| - 1])
  }

  lemma SummaryStep(records: seq<ErrorRecord>, i: nat, lines: string)
    requires i < |records| && lines == SummaryLines(records[..i])
    ensures lines + SummaryLine(records[i]) == SummaryLines(records[..i + 1])
  {
    assert records[..i + 1][..i] == records[..i];
  }

  /** The most recent records, at most five, oldest first. */
  function RecentErrors(history: seq<ErrorRecord>): (r: seq<ErrorRecord>)
    ensures |r| == if |history| < RecentDepth then |history| else RecentDepth
    ensures forall i :: 0 <= i < |r| ==> r[i] == history[|history| - |r| + i]
  {
    if |history| <= RecentDepth then history else history[|history| - RecentDepth..]
  }

  function ErrorSummary(history: seq<ErrorRecord>): string
  {
    if history == [] then "No errors recorded"
    else "Recent Errors:\n" + SummaryLines(RecentErrors(history))
  }

  /** While fewer than five faults are logged, each new fault adds exactly its own line. */
  lemma SummaryGrowsByOneLine(history: seq<ErrorRecord>, r: ErrorRecord)
    requires 0 < |history| < RecentDepth
    ensures ErrorSummary(history + [r]) == ErrorSummary(history) + SummaryLine(r)
  {
    assert (history + [r])[..|history|] == history;
  }

  /** Once five faults are logged, a new fault pushes the oldest shown one out of the summary. */
  lemma RecentWindowSlides(history: seq<ErrorRecord>, r: ErrorRecord)
    requires |history| >= RecentDepth
    ensures RecentErrors(history + [r]) == RecentErrors(history)[1..] + [r]
  {
  }

  // ---------------------------------------------------------------------------
  // The handler object

  class XArmErrorHandler {
    var errorHistory: seq<ErrorRecord>
    var retryCount: map<RetryKey, nat>

    constructor ()
      ensures errorHistory == [] && retryCount == map[]
    {
      errorHistory := [];
      retryCount := map[];
    }

    /**
     * Classifies a fault. Code 0 and unknown codes log nothing; a known code
     * appends exactly one record. The retry counts are never changed here.
     */
    method HandleError(errorCode: int, warnCode: int, context: string) returns (d: Decision)
      modifies this`errorHistory
      ensures d == Classify(retryCount, errorCode, context)
      ensures errorHistory == old(errorHistory)
                + (if errorCode != 0 && LookupErrorInfo(errorCode).Some?
                   then [ErrorRecord(errorCode, warnCode, context)] else [])
    {
      if errorCode == 0 {
        return Decision(true, "No error", AutoRetry);
      }
      var info := ControllerErrorInfo(errorCode);
      if info.None? {
        info := JointErrorInfo(errorCode);
      }
      if info.None? {
        return Decision(false, "Unknown error code: " + IntToString(errorCode), ContactSupport);
      }
      errorHistory := errorHistory + [ErrorRecord(errorCode, warnCode, context)];
      var recovery := info.value.Recovery();
      var severity := info.value.Severity();
      var canAutoRecover := CanAutoRecover(retryCount, errorCode, severity, recovery);
      d := Decision(canAutoRecover, FaultMessage(info.value, context), recovery);
    }

    method IncrementRetryCount(code: int, action: RecoveryAction)
      modifies this`retryCount
      ensures retryCount == Bumped(old(retryCount), RetryKey(code, action))
    {
      retryCount := retryCount[RetryKey(code, action) := RetryCount(retryCount, RetryKey(code, action)) + 1];
    }

    /** No arguments: clear every key. Both: drop that key. Exactly one: do nothing. */
    method ResetRetryCount(code: Option<int>, action: Option<RecoveryAction>)
      modifies this`retryCount
      ensures code.None? && action.None? ==> retryCount == map[]
      ensures code.Some? && action.Some? ==> retryCount == old(retryCount) - {RetryKey(code.value, action.value)}
      ensures code.Some? != action.Some? ==> retryCount == old(retryCount)
    {
      if code.None? && action.None? {
        retryCount := map[];
      } else if code.Some? && action.Some? {
        retryCount := retryCount - {RetryKey(code.value, action.value)};
      }
    }

    /** Builds the summary text line by line over the last five records. */
    method GetErrorSummary() returns (summary: string)
      ensures summary == ErrorSummary(errorHistory)
    {
      if errorHistory == [] {
        return "No errors recorded";
      }
      var recent := RecentErrors(errorHistory);
      var lines := "";
      var i := 0;
      while i < |recent|
        invariant 0 <= i <= |recent|
        invariant lines == SummaryLines(recent[..i])
      {
        SummaryStep(recent, i, lines);
        lines := lines + SummaryLine(recent[i]);
        i := i + 1;
      }
      assert recent[..i] == recent;
      summary := "Recent Errors:\n" + lines;
    }
  }
}
