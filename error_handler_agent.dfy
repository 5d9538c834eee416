/**
 * The error handler agent: classifies each log event against the per-type
 * handling policies and the user's ignore patterns, and decides whether the
 * event is ignored, reported, or terminates the autopilot run.
 */
module Agents {
  import opened Wrappers
  import opened Types
  import Text
  import Settings

  /**
   * A behavior value the enum does not name (the named ones are Ignore 0,
   * ReportOnly 1 and TerminateAutopilot 2), as a serialized field can hold.
   */
  type OtherBehaviorCode = c: int | IsInt32(c) && (c < 0 || 2 < c) witness -1

  datatype HandlingBehavior = Ignore | ReportOnly | TerminateAutopilot | OtherBehavior(code: OtherBehaviorCode)

  /** `HandleLog` terminates the run for every behavior other than `Ignore` and `ReportOnly`. */
  predicate Terminates(b: HandlingBehavior) {
    b != Ignore && b != ReportOnly
  }

  /**
   * The regular-expression engine, which this model does not implement:
   * whether a pattern string compiles, and whether a compiled pattern
   * matches a message.
   */
  datatype RegexEngine = RegexEngine(compiles: string -> bool, isMatch: (string, string) -> bool)

  /** A compiled regular expression, identified by the pattern it came from. */
  datatype Regex = Regex(pattern: string)

  /** The four per-type handling fields of the agent, as one value. */
  datatype Policies = Policies(
    handleException: HandlingBehavior,
    handleError: HandlingBehavior,
    handleAssert: HandlingBehavior,
    handleWarning: HandlingBehavior)

  /** The four command-line overrides; `None` is an argument that was not captured. */
  datatype Arguments = Arguments(
    handleException: Option<bool>,
    handleError: Option<bool>,
    handleAssert: Option<bool>,
    handleWarning: Option<bool>)

  /** What handling one log event sets off. */
  datatype Action =
    | NoAction
    | PostReport(message: string, stackTrace: string, exitCode: ExitCode)
    | Terminate(exitCode: ExitCode, message: string, stackTrace: string)

  /** The default policies of a new agent. */
  const DefaultPolicies := Policies(TerminateAutopilot, TerminateAutopilot, TerminateAutopilot, Ignore)

  /**
   * A stack trace that passes through the agent itself or the Slack API
   * belongs to a log the reporting path produced; handling it again would loop.
   */
  predicate IsLoopedMessage(stackTrace: string)
    ensures IsLoopedMessage(stackTrace) <==>
              (exists i :: Text.OccursAt(stackTrace, "ErrorHandlerAgent", i)) || (exists i :: Text.OccursAt(stackTrace, "SlackAPI", i))
  {
    Text.Contains(stackTrace, "ErrorHandlerAgent") || Text.Contains(stackTrace, "SlackAPI")
  }

  /**
   * The regexes built from the ignore patterns, in their order; a pattern
   * that does not compile is skipped.
   */
  function CompileAll(engine: RegexEngine, patterns: seq<string>): (r: seq<Regex>)
    ensures |r| <= |patterns|
    ensures forall k :: 0 <= k < |r| ==> engine.compiles(r[k].pattern) && r[k].pattern in patterns
    ensures forall p :: p in patterns && engine.compiles(p) ==> Regex(p) in r
  {
    if patterns == [] then []
    else
      var last := patterns[|patterns| - 1];
      var init := patterns[..|patterns| - 1];
      assert patterns == init + [last];
      CompileAll(engine, init) + if engine.compiles(last) then [Regex(last)] else []
  }

  /** Compiling keeps the patterns' order: the list of a concatenation is the concatenation of the lists. */
  lemma {:induction false} CompileAllAppend(engine: RegexEngine, a: seq<string>, b: seq<string>)
    ensures CompileAll(engine, a + b) == CompileAll(engine, a) + CompileAll(engine, b)
    decreases |b|
  {
    if b == [] {
      assert a + b == a;
    } else {
      var init, last := b[..|b| - 1], b[|b| - 1];
      CompileAllAppend(engine, a, init);
      var tail := if engine.compiles(last) then [Regex(last)] else [];
      assert (a + b)[..|a + b| - 1] == a + init;
      assert (a + b)[|a + b| - 1] == last;
      calc {
        CompileAll(engine, a + b);
        CompileAll(engine, a + init) + tail;
        CompileAll(engine, a) + CompileAll(engine, init) + tail;
        CompileAll(engine, a) + CompileAll(engine, b);
      }
    }
  }

  /** When every pattern compiles, every pattern is kept, one regex per pattern, in order. */
  lemma {:induction false} CompileAllValid(engine: RegexEngine, patterns: seq<string>)
    requires forall k :: 0 <= k < |patterns| ==> engine.compiles(patterns[k])
    ensures |CompileAll(engine, patterns)| == |patterns|
    ensures forall k :: 0 <= k < |patterns| ==> CompileAll(engine, patterns)[k] == Regex(patterns[k])
  {
    if patterns != [] {
      var init, last := patterns[..|patterns| - 1], patterns[|patterns| - 1];
      CompileAllValid(engine, init);
      var r := CompileAll(engine, patterns);
      assert r == CompileAll(engine, init) + [Regex(last)];
      forall k | 0 <= k < |patterns|
        ensures r[k] == Regex(patterns[k])
      {
        if k < |init| {
          assert r[k] == CompileAll(engine, init)[k];
          assert patterns[k] == init[k];
        }
      }
    }
  }

  /** `List<Regex>.Exists(regex => regex.IsMatch(message))`. */
  predicate AnyMatch(engine: RegexEngine, regexes: seq<Regex>, message: string) {
    exists k :: 0 <= k < |regexes| && engine.isMatch(regexes[k].pattern, message)
  }

  /**
   * A message is ignored exactly when one of the ignore patterns that
   * compiles matches it; a pattern that does not compile ignores nothing.
   */
  lemma IgnoredByPattern(engine: RegexEngine, patterns: seq<string>, message: string)
    ensures AnyMatch(engine, CompileAll(engine, patterns), message) <==>
              exists k :: 0 <= k < |patterns| && engine.compiles(patterns[k]) && engine.isMatch(patterns[k], message)
  {
    var r := CompileAll(engine, patterns);
    if AnyMatch(engine, r, message) {
      var k :| 0 <= k < |r| && engine.isMatch(r[k].pattern, message);
      var j :| 0 <= j < |patterns| && patterns[j] == r[k].pattern;
      assert engine.compiles(patterns[j]) && engine.isMatch(patterns[j], message);
    }
    if exists k :: 0 <= k < |patterns| && engine.compiles(patterns[k]) && engine.isMatch(patterns[k], message) {
      var k :| 0 <= k < |patterns| && engine.compiles(patterns[k]) && engine.isMatch(patterns[k], message);
      assert Regex(patterns[k]) in r;
      var j :| 0 <= j < |r| && r[j] == Regex(patterns[k]);
      assert engine.isMatch(r[j].pattern, message);
    }
  }

  /** The `switch` on the log type: the configured field, or an out-of-range error. */
  function PolicyFor(p: Policies, logType: LogType): (r: Result<HandlingBehavior, Failure>)
    ensures r.Err? <==> logType == Log || logType.OtherLogType?
    ensures r.Err? ==> r.error == ArgumentOutOfRange(logType)
    ensures r.Ok? ==> r.value in {p.handleException, p.handleError, p.handleAssert, p.handleWarning}
  {
    match logType
    case Exception => Ok(p.handleException)
    case Error => Ok(p.handleError)
    case Assert => Ok(p.handleAssert)
    case Warning => Ok(p.handleWarning)
    case _ => Err(ArgumentOutOfRange(logType))
  }

  /**
   * `JudgeHandlingBehavior`: informational logs first, then looped stack
   * traces, then the ignore patterns, and only then the per-type policy.
   */
  function Judge(p: Policies, engine: RegexEngine, regexes: seq<Regex>,
                 logString: string, stackTrace: string, logType: LogType): (r: Result<HandlingBehavior, Failure>)
    ensures logType == Log ==> r == Ok(Ignore)
    ensures IsLoopedMessage(stackTrace) ==> r == Ok(Ignore)
    ensures AnyMatch(engine, regexes, logString) ==> r == Ok(Ignore)
    ensures logType != Log && !IsLoopedMessage(stackTrace) && !AnyMatch(engine, regexes, logString) ==>
              r == PolicyFor(p, logType)
    ensures r.Err? <==> logType.OtherLogType? && !IsLoopedMessage(stackTrace) && !AnyMatch(engine, regexes, logString)
  {
    if logType == Log then Ok(Ignore)
    else if IsLoopedMessage(stackTrace) then Ok(Ignore)
    else if AnyMatch(engine, regexes, logString) then Ok(Ignore)
    else PolicyFor(p, logType)
  }

  /** The exit code an escalated log event ends the run with. */
  function ExitCodeFor(logType: LogType): (e: ExitCode)
    ensures e == UnCatchExceptions <==> logType == Exception
    ensures e == UnCatchExceptions || e == DetectErrorsInLog
  {
    if logType == Exception then UnCatchExceptions else DetectErrorsInLog
  }

  /**
   * The dispatch half of `HandleLog`, given the judged behavior and whether
   * the run state has settings attached.
   */
  function Dispatch(behavior: HandlingBehavior, logType: LogType, logString: string, stackTrace: string,
                    running: bool): (r: Result<Action, Failure>)
    ensures r == Ok(NoAction) <==> behavior == Ignore
    ensures r.Err? <==> behavior == ReportOnly && !running
    ensures r.Err? ==> r.error == InvalidOperation(NotRunningMessage)
    ensures r.Ok? && r.value.PostReport? <==> behavior == ReportOnly && running
    ensures r.Ok? && r.value.Terminate? <==> Terminates(behavior)
    ensures r.Ok? && !r.value.NoAction? ==>
              r.value.exitCode == ExitCodeFor(logType) && r.value.message == logString && r.value.stackTrace == stackTrace
  {
    match behavior
    case Ignore => Ok(NoAction)
    case ReportOnly =>
      if !running then Err(InvalidOperation(NotRunningMessage))
      else Ok(PostReport(logString, stackTrace, ExitCodeFor(logType)))
    case TerminateAutopilot | OtherBehavior(_) => Ok(Terminate(ExitCodeFor(logType), logString, stackTrace))
  }

  /** `HandleLog` as a whole: judge the event, then dispatch on the behavior. */
  function Handle(p: Policies, engine: RegexEngine, regexes: seq<Regex>,
                  logString: string, stackTrace: string, logType: LogType, running: bool): (r: Result<Action, Failure>)
    ensures logType == Log || IsLoopedMessage(stackTrace) || AnyMatch(engine, regexes, logString) ==> r == Ok(NoAction)
    ensures r.Err? <==>
              && logType != Log && !IsLoopedMessage(stackTrace) && !AnyMatch(engine, regexes, logString)
              && (logType.OtherLogType? || (PolicyFor(p, logType) == Ok(ReportOnly) && !running))
    ensures r.Err? ==> r.error in {ArgumentOutOfRange(logType), InvalidOperation(NotRunningMessage)}
    ensures r.Ok? && !r.value.NoAction? ==>
              && (r.value.Terminate? <==> PolicyFor(p, logType).Ok? && Terminates(PolicyFor(p, logType).value))
              && (r.value.PostReport? <==> PolicyFor(p, logType) == Ok(ReportOnly) && running)
              && r.value.exitCode == ExitCodeFor(logType)
              && r.value.message == logString && r.value.stackTrace == stackTrace
  {
    match Judge(p, engine, regexes, logString, stackTrace, logType)
    case Err(e) => Err(e)
    case Ok(behavior) => Dispatch(behavior, logType, logString, stackTrace, running)
  }

  /** A log type whose policy is `Ignore` never reports and never terminates, whatever the message. */
  lemma IgnoredTypeSetsOffNothing(p: Policies, engine: RegexEngine, regexes: seq<Regex>,
                                  logString: string, stackTrace: string, logType: LogType, running: bool)
    requires PolicyFor(p, logType) == Ok(Ignore)
    ensures Handle(p, engine, regexes, logString, stackTrace, logType, running) == Ok(NoAction)
  {
  }

  /**
   * A message matching an ignore pattern, or a looped stack trace, sets off
   * nothing even when every policy terminates the run.
   */
  lemma SuppressedEventSetsOffNothing(p: Policies, engine: RegexEngine, regexes: seq<Regex>,
                                      logString: string, stackTrace: string, logType: LogType, running: bool)
    requires IsLoopedMessage(stackTrace) || AnyMatch(engine, regexes, logString)
    ensures Handle(p, engine, regexes, logString, stackTrace, logType, running) == Ok(NoAction)
  {
  }

  /**
   * An event that sets something off passed every filter, and what it sets
   * off is the one its type's policy names, with the type's exit code.
   */
  lemma EscalatedEventFollowsPolicy(p: Policies, engine: RegexEngine, regexes: seq<Regex>,
                                    logString: string, stackTrace: string, logType: LogType, running: bool)
    requires Handle(p, engine, regexes, logString, stackTrace, logType, running).Ok?
    requires !Handle(p, engine, regexes, logString, stackTrace, logType, running).value.NoAction?
    ensures logType in {Exception, Error, Assert, Warning}
    ensures !IsLoopedMessage(stackTrace) && !AnyMatch(engine, regexes, logString)
    ensures var a := Handle(p, engine, regexes, logString, stackTrace, logType, running).value;
      a.exitCode == ExitCodeFor(logType) &&
      (a.Terminate? <==> PolicyFor(p, logType).Ok? && Terminates(PolicyFor(p, logType).value)) &&
      (a.PostReport? <==> PolicyFor(p, logType) == Ok(ReportOnly))
  {
  }

  /** A command-line flag: present and true terminates, present and false ignores. */
  function HandlingBehaviorFrom(value: bool): (r: HandlingBehavior)
    ensures r == TerminateAutopilot <==> value
    ensures r == Ignore <==> !value
  {
    if value then TerminateAutopilot else Ignore
  }

  /**
   * A captured argument replaces its field with terminate (true) or ignore
   * (false), so an overridden type never reports only; an argument that was
   * not captured keeps the field's value.
   */
  function Override(current: HandlingBehavior, arg: Option<bool>): (r: HandlingBehavior)
    ensures arg.None? ==> r == current
    ensures arg.Some? ==> r != ReportOnly && (r == TerminateAutopilot <==> arg.value)
  {
    if arg.Some? then HandlingBehaviorFrom(arg.value) else current
  }

  class ErrorHandlerAgent {
    const engine: RegexEngine
    var handleException: HandlingBehavior
    var handleError: HandlingBehavior
    var handleAssert: HandlingBehavior
    var handleWarning: HandlingBehavior
    var ignoreMessages: seq<string>
    /** The lazily built regex list; `None` until first needed after a launch. */
    var ignoreMessagesRegexes: Option<seq<Regex>>

    constructor (engine: RegexEngine)
      ensures this.engine == engine
      ensures CurrentPolicies() == DefaultPolicies
      ensures ignoreMessages == [] && ignoreMessagesRegexes == None
    {
      this.engine := engine;
      handleException := TerminateAutopilot;
      handleError := TerminateAutopilot;
      handleAssert := TerminateAutopilot;
      handleWarning := Ignore;
      ignoreMessages := [];
      ignoreMessagesRegexes := None;
    }

    /** The four handling fields, as one value. */
    function CurrentPolicies(): Policies
      reads this
    {
      Policies(handleException, handleError, handleAssert, handleWarning)
    }

    /** The regex list the agent matches against: the cached one, or the one it would build now. */
    ghost function ActiveRegexes(): seq<Regex>
      reads this
    {
      if ignoreMessagesRegexes.Some? then ignoreMessagesRegexes.value else CompileAll(engine, ignoreMessages)
    }

    /** Compiles the ignore patterns one by one, skipping the ones that do not compile. */
    method CreateIgnoreMessageRegexes() returns (regexes: seq<Regex>)
      ensures regexes == CompileAll(engine, ignoreMessages)
    {
      regexes := [];
      var i := 0;
      while i < |ignoreMessages|
        invariant 0 <= i <= |ignoreMessages|
        invariant regexes == CompileAll(engine, ignoreMessages[..i])
      {
        var message := ignoreMessages[i];
        assert ignoreMessages[..i + 1] == ignoreMessages[..i] + [message];
        if engine.compiles(message) {
          regexes := regexes + [Regex(message)];
        }
        i := i + 1;
      }
      assert ignoreMessages[..i] == ignoreMessages;
    }

    /** Builds the regex list if it is not built yet, then matches the message against it. */
    method IsIgnoreMessage(logString: string) returns (ignored: bool)
      modifies this`ignoreMessagesRegexes
      ensures old(ignoreMessagesRegexes).Some? ==> ignoreMessagesRegexes == old(ignoreMessagesRegexes)
      ensures old(ignoreMessagesRegexes).None? ==> ignoreMessagesRegexes == Some(CompileAll(engine, ignoreMessages))
      ensures ActiveRegexes() == old(ActiveRegexes())
      ensures ignored == AnyMatch(engine, ignoreMessagesRegexes.value, logString)
    {
      if ignoreMessagesRegexes.None? {
        var regexes := CreateIgnoreMessageRegexes();
        ignoreMessagesRegexes := Some(regexes);
      }
      var regexes := ignoreMessagesRegexes.value;
      ignored := exists k :: 0 <= k < |regexes| && engine.isMatch(regexes[k].pattern, logString);
    }

    /**
     * The classifier; the regex list is built only when the ignore patterns
     * are consulted, i.e. after the first two checks let the event through.
     */
    method JudgeHandlingBehavior(logString: string, stackTrace: string, logType: LogType)
      returns (r: Result<HandlingBehavior, Failure>)
      modifies this`ignoreMessagesRegexes
      ensures r == Judge(CurrentPolicies(), engine, ActiveRegexes(), logString, stackTrace, logType)
      ensures ActiveRegexes() == old(ActiveRegexes())
      ensures old(ignoreMessagesRegexes).Some? || logType == Log || IsLoopedMessage(stackTrace) ==>
                ignoreMessagesRegexes == old(ignoreMessagesRegexes)
      ensures ignoreMessagesRegexes.None? ==> logType == Log || IsLoopedMessage(stackTrace)
    {
      if logType == Log {
        return Ok(Ignore);
      }
      if IsLoopedMessage(stackTrace) {
        return Ok(Ignore);
      }
      var ignored := IsIgnoreMessage(logString);
      if ignored {
        return Ok(Ignore);
      }
      r := PolicyFor(CurrentPolicies(), logType);
    }

    /**
     * `HandleLog`: judges the event and returns what it sets off. `state` is
     * the run state instance, consulted only for a report.
     */
    method HandleLog(logString: string, stackTrace: string, logType: LogType, state: Settings.AutopilotState)
      returns (r: Result<Action, Failure>)
      modifies this`ignoreMessagesRegexes
      ensures r == Handle(CurrentPolicies(), engine, ActiveRegexes(), logString, stackTrace, logType, state.IsRunning())
      ensures ActiveRegexes() == old(ActiveRegexes())
      ensures old(ignoreMessagesRegexes).Some? || logType == Log || IsLoopedMessage(stackTrace) ==>
                ignoreMessagesRegexes == old(ignoreMessagesRegexes)
      ensures ignoreMessagesRegexes.None? ==> logType == Log || IsLoopedMessage(stackTrace)
    {
      var behavior := JudgeHandlingBehavior(logString, stackTrace, logType);
      if behavior.Err? {
        return Err(behavior.error);
      }
      if behavior.value == Ignore {
        return Ok(NoAction);
      }
      var exitCode := ExitCodeFor(logType);
      if behavior.value == ReportOnly {
        if state.settings == null {
          return Err(InvalidOperation(NotRunningMessage));
        }
        r := Ok(PostReport(logString, stackTrace, exitCode));
      } else {
        r := Ok(Terminate(exitCode, logString, stackTrace));
      }
    }

    /** Each captured argument replaces its field; the other fields are left as they are. */
    method OverwriteByCommandLineArguments(args: Arguments)
      modifies this`handleException, this`handleError, this`handleAssert, this`handleWarning
      ensures handleException == Override(old(handleException), args.handleException)
      ensures handleError == Override(old(handleError), args.handleError)
      ensures handleAssert == Override(old(handleAssert), args.handleAssert)
      ensures handleWarning == Override(old(handleWarning), args.handleWarning)
    {
      if args.handleException.Some? {
        handleException := HandlingBehaviorFrom(args.handleException.value);
      }
      if args.handleError.Some? {
        handleError := HandlingBehaviorFrom(args.handleError.value);
      }
      if args.handleAssert.Some? {
        handleAssert := HandlingBehaviorFrom(args.handleAssert.value);
      }
      if args.handleWarning.Some? {
        handleWarning := HandlingBehaviorFrom(args.handleWarning.value);
      }
    }
  }

  /**
   * Run on each launch: drops every agent's regex list so that the next
   * consultation builds it again from the current patterns.
   */
  method ResetInstances(agents: seq<ErrorHandlerAgent>)
    modifies set a | a in agents
    ensures forall a :: a in agents ==> a.ignoreMessagesRegexes.None?
    ensures forall a :: a in agents ==> a.CurrentPolicies() == old(a.CurrentPolicies()) && a.ignoreMessages == old(a.ignoreMessages)
  {
    var i := 0;
    while i < |agents|
      invariant 0 <= i <= |agents|
      invariant forall k :: 0 <= k < i ==> agents[k].ignoreMessagesRegexes.None?
      invariant forall a :: a in agents ==> a.CurrentPolicies() == old(a.CurrentPolicies()) && a.ignoreMessages == old(a.ignoreMessages)
    {
      agents[i].ignoreMessagesRegexes := None;
      i := i + 1;
    }
  }
}
