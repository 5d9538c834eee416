/** Option and Result, used for C# null references and thrown exceptions. */
module Wrappers {

  datatype Option<+T> = None | Some(value: T) {
    function GetOr(default: T): T {
      match this
      case Some(v) => v
      case None => default
    }
  }

  datatype Result<+R, +E> = Ok(value: R) | Err(error: E)
}

/**
 * The engine and project enumerations the core reads. Their declarations
 * (UnityEngine.LogType, DeNA.Anjin.ExitCode, DeNA.Anjin.Settings.LaunchType)
 * are not part of this model; only the members the core names are listed.
 * A C# enum variable can hold any integer, so `Other(code)` stands for a value
 * outside the named members: it is what the `default:` branches of the core see.
 */
module Types {

  /** The range of a C# `int`, which both enums are stored in. */
  predicate IsInt32(c: int) {
    -0x8000_0000 <= c < 0x8000_0000
  }

  /**
   * A `LogType` value outside the named members, whose values are
   * Error 0, Assert 1, Warning 2, Log 3 and Exception 4.
   */
  type OtherLogCode = c: int | IsInt32(c) && (c < 0 || 4 < c) witness -1

  /** UnityEngine.LogType. */
  datatype LogType = Error | Assert | Warning | Log | Exception | OtherLogType(code: OtherLogCode)

  /**
   * An `ExitCode` value the enum does not name. The named members' values
   * are fixed by the enum's declaration, which is not part of this model, so
   * only the `int` range is stated here.
   */
  type ExitCodeValue = c: int | IsInt32(c)

  /** DeNA.Anjin.ExitCode: the outcome recorded for one autopilot run. */
  datatype ExitCode =
    | Normally
    | UnCatchExceptions
    | DetectErrorsInLog
    | AutopilotFailed
    | AutopilotLifespanExpired
    | AutopilotLaunchingFailed
    | OtherExitCode(code: ExitCodeValue)
  {
    /** True for the members the enum declares by name. */
    predicate IsNamed() {
      !OtherExitCode?
    }

    /** `ExitCode.ToString()` of a named member. */
    function Name(): (r: string)
      requires IsNamed()
      ensures |r| > 0 && 'A' <= r[0] <= 'Z'
    {
      match this
      case Normally => "Normally"
      case UnCatchExceptions => "UnCatchExceptions"
      case DetectErrorsInLog => "DetectErrorsInLog"
      case AutopilotFailed => "AutopilotFailed"
      case AutopilotLifespanExpired => "AutopilotLifespanExpired"
      case AutopilotLaunchingFailed => "AutopilotLaunchingFailed"
    }
  }

  /** The exceptions the core throws. */
  datatype Failure = ArgumentOutOfRange(logType: LogType) | InvalidOperation(message: string)

  /** The message of the exception thrown when a report is asked for outside a run. */
  const NotRunningMessage := "Autopilot is not running"

  /** DeNA.Anjin.Settings.LaunchType: `NotSet` and the launch kinds this model does not distinguish. */
  datatype LaunchType = NotSet | LaunchedFrom(kind: nat)
}
