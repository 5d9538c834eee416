# Anjin error-handling core, modelled in Dafny

Anjin is an autopilot for exploratory ("monkey") testing of Unity games.
This project models the part of it that handles errors and keeps the state
of a run:

- **Error handler agent** (`Agents`, `error_handler_agent.dfy`). It
  classifies every log event: informational logs are ignored. Then
  self-originated stack traces are ignored (those passing through
  `ErrorHandlerAgent` or `SlackAPI`). Then messages matching one of the
  user's ignore patterns are ignored. Otherwise the per-type policy
  (`Ignore`, `ReportOnly`, `TerminateAutopilot`) applies. The agent then
  reports the event, terminates the run, or does nothing. Command-line flags
  can override the policies. The ignore-pattern regex list is built lazily
  and dropped on every launch.
- **JUnit XML reporter** (`Reporters`, `junit_xml_reporter.dfy`, over the
  element tree of `Xml`, `xml.dfy`). It renders a run's exit code as one
  test case inside one test suite inside a test-suites element, in the JUnit
  layout described by the Jenkins JUnit format document. It saves the
  document at the resolved output path.
- **Run state** (`Settings`, `autopilot_state.dfy`). `AutopilotState` holds
  the launch type, the run's settings and its exit code. `Reset` clears
  them, `IsRunning` holds while settings are attached, and `Instance` is
  the lazily created shared instance.
- **File logger** (`Loggers`, `file_logger_asset.dfy`). A logger asset
  lazily opens a log file handler and appends one line per log entry. Each
  line optionally starts with a timestamp, which is cached per frame.
  Writes after disposal are dropped, and every launch resets the loggers.

`types.dfy` holds `Option`/`Result` and the engine enumerations the core
reads. `text.dfy` holds the two .NET string operations the core relies on:
ordinal `string.Contains` and the decimal rendering of integer attributes.

How the outside world enters the model:

- The regular-expression engine is a `RegexEngine` value of two functions:
  whether a pattern compiles, and whether a compiled pattern matches a
  message.
- The frame counter, the current time, the elapsed run time and the start
  timestamp arrive as parameters. Times are passed already rendered as text.
- Resolved output paths arrive as parameters. `None` stands for null.
- The log file is the handler's `lines`. Saved XML documents are the
  `documents` map of an `OutputFiles` object.
- `HandleLog` returns the action it sets off (`NoAction`, `PostReport`,
  `Terminate`) or the exception it throws, as a `Result`.
- The static `s_instance` field is an `AutopilotStateRegistry` object. The
  assets the editor's asset database finds arrive as a sequence.
- `LogType`, `ExitCode` and `HandlingBehavior` carry an `Other…(code)` variant. A C# enum
  variable can hold an undeclared integer, and that is what the `default:`
  branches handle. The code is a 32-bit `int`. For `LogType` it also lies
  outside the declared values 0 to 4, and for `HandlingBehavior` outside 0 to 2;
  `HandleLog` terminates the run for such a behavior, as it does for
  `TerminateAutopilot`. For `ExitCode` the declared values
  are not part of this model, so an `OtherExitCode(code)` is assumed to
  carry a value that no declared member has.
- `null` for the run's settings and for the shared instance stands for
  Unity's "null or destroyed" object test.

Two behaviours of the code are worth stating:

- A command-line override replaces a policy only when its flag was
  captured. A flag set to true gives `TerminateAutopilot` and a flag set to
  false gives `Ignore`. A flag that was not captured leaves the configured
  policy as it is, so the override is not all-or-nothing.
- The timestamp cache starts at frame 0 with no text, so the first entry
  written in frame 0 has no timestamp.

## Model

| member | source | states |
|---|---|---|
| `Text.Contains` | Runtime/Agents/ErrorHandlerAgent.cs:144 | the ordinal substring test is true exactly when `sub` occurs at some index of `s` |
| `Text.IntToString` | Runtime/Reporters/JUnitXmlReporter.cs:116-122 | an integer attribute starts with `-` exactly for negative values; otherwise it is the decimal digits |
| `Text.NatToString` | Runtime/Reporters/JUnitXmlReporter.cs:116-122 | the decimal rendering is non-empty, all digits, with no leading zero |
| `Text.NatToStringRoundTrip` | Runtime/Reporters/JUnitXmlReporter.cs:116-122 | reading the rendered digits back gives the number |
| `Text.IntToStringInjective` | Runtime/Reporters/JUnitXmlReporter.cs:101 | two integers with the same rendering are equal |
| `Agents.CompileAll` | Runtime/Agents/ErrorHandlerAgent.cs:180-200 | the regex list keeps exactly the patterns that compile: every kept one compiles and comes from the input, and every compiling input is kept |
| `Agents.CompileAllAppend` | Runtime/Agents/ErrorHandlerAgent.cs:183-196 | the list keeps the input order: the list built from `a + b` is the list from `a` followed by the list from `b` |
| `Agents.CompileAllValid` | Runtime/Agents/ErrorHandlerAgent.cs:183-196 | when every pattern compiles, the list has one regex per pattern, in order |
| `Types.ExitCode.Name` | Runtime/Reporters/JUnitXmlReporter.cs:88 | the name of a declared member is non-empty and starts with an upper-case letter |
| `Agents.IsLoopedMessage` | Runtime/Agents/ErrorHandlerAgent.cs:144 | a stack trace is looped exactly when "ErrorHandlerAgent" or "SlackAPI" occurs somewhere in it |
| `Agents.IgnoredByPattern` | Runtime/Agents/ErrorHandlerAgent.cs:177 | a message matches the built regex list exactly when some ignore pattern that compiles matches it |
| `Agents.PolicyFor` | Runtime/Agents/ErrorHandlerAgent.cs:155-166 | the switch gives one of the four configured fields for the four handled types and throws the out-of-range error exactly for `Log` and undeclared types |
| `Agents.Judge` | Runtime/Agents/ErrorHandlerAgent.cs:137-168 | `Log` events, looped stack traces and messages matching an ignore regex give `Ignore` whatever the policy; otherwise the result is the type's policy; the out-of-range error arises exactly for an undeclared log type that passed both filters |
| `Agents.ExitCodeFor` | Runtime/Agents/ErrorHandlerAgent.cs:118 | the exit code is `UnCatchExceptions` exactly for `Exception` and `DetectErrorsInLog` otherwise |
| `Agents.Dispatch` | Runtime/Agents/ErrorHandlerAgent.cs:107-134 | `Ignore` sets off nothing; `ReportOnly` posts a report when settings are attached and throws "Autopilot is not running" otherwise; every other behavior, including an undeclared value, terminates; both carry the message, stack trace and type's exit code |
| `Agents.Handle` | Runtime/Agents/ErrorHandlerAgent.cs:105-135 | `Log`, looped and ignored events set off nothing; an exception arises exactly for an undeclared type or a report-only type outside a run; a report or termination follows the type's policy and carries the message, stack trace and type's exit code |
| `Agents.IgnoredTypeSetsOffNothing` | Runtime/Agents/ErrorHandlerAgent.cs:107-166 | a log type whose policy is `Ignore` never reports or terminates, whatever the message |
| `Agents.SuppressedEventSetsOffNothing` | Runtime/Agents/ErrorHandlerAgent.cs:144-153 | a looped stack trace or an ignored message sets off nothing, even under a terminating policy |
| `Agents.EscalatedEventFollowsPolicy` | Runtime/Agents/ErrorHandlerAgent.cs:107-166 | an event that sets something off is of one of the four handled types, passed both filters, and reports or terminates exactly as its type's policy says |
| `Agents.HandlingBehaviorFrom` | Runtime/Agents/ErrorHandlerAgent.cs:225-228 | true gives `TerminateAutopilot`, false gives `Ignore` |
| `Agents.Override` | Runtime/Agents/ErrorHandlerAgent.cs:204-228 | a flag that was not captured keeps the field's value; a captured one gives a policy that is never `ReportOnly` and terminates exactly when the flag is true |
| `Agents.ErrorHandlerAgent.constructor` | Runtime/Agents/ErrorHandlerAgent.cs:44-66 | a new agent terminates on exceptions, errors and asserts, ignores warnings, has no ignore patterns and no regex list |
| `Agents.ErrorHandlerAgent.CreateIgnoreMessageRegexes` | Runtime/Agents/ErrorHandlerAgent.cs:180-200 | the loop builds exactly `CompileAll` of the agent's patterns |
| `Agents.ErrorHandlerAgent.IsIgnoreMessage` | Runtime/Agents/ErrorHandlerAgent.cs:170-178 | an existing regex list is kept as it is; a missing one is built once from the patterns; the answer is whether any regex of the list matches |
| `Agents.ErrorHandlerAgent.JudgeHandlingBehavior` | Runtime/Agents/ErrorHandlerAgent.cs:137-168 | the result is `Judge` over the agent's fields; the regex list is built only when the first two checks let the event through |
| `Agents.ErrorHandlerAgent.HandleLog` | Runtime/Agents/ErrorHandlerAgent.cs:105-135 | the action or exception is the judgement followed by the dispatch, with "running" read from the run state; a built regex list stays as it is, and an event that passes the first two checks leaves the list built |
| `Agents.ErrorHandlerAgent.OverwriteByCommandLineArguments` | Runtime/Agents/ErrorHandlerAgent.cs:202-223 | each captured flag replaces its field with `HandlingBehaviorFrom` of its value; the other fields keep their values |
| `Agents.ResetInstances` | Runtime/Agents/ErrorHandlerAgent.cs:68-77 | every agent's regex list is dropped; policies and patterns are untouched |
| `Xml.AttributeValueSpec` | Runtime/Reporters/JUnitXmlReporter.cs:113 | the attribute lookup finds a value exactly when an attribute has the name, and returns the first one's value |
| `Xml.AttributeValueAt` | Runtime/Reporters/JUnitXmlReporter.cs:113 | the lookup returns the value of an attribute when no earlier attribute has its name |
| `Xml.ChildElementSpec` | Runtime/Reporters/JUnitXmlReporter.cs:111-112 | the child lookup finds an element exactly when a child element has the name, and the found one is such a child |
| `Reporters.VerdictOf` | Runtime/Reporters/JUnitXmlReporter.cs:79-103 | `Normally` passes; `UnCatchExceptions`, `DetectErrorsInLog` and `AutopilotLaunchingFailed` are errors; `AutopilotFailed`, `AutopilotLifespanExpired` and undeclared codes are failures |
| `Reporters.TypeAttribute` | Runtime/Reporters/JUnitXmlReporter.cs:86-101 | the `type` attribute is non-empty, and starts with an upper-case letter exactly for a declared member (its name) rather than an undeclared code (its integer) |
| `Reporters.TypeAttributeInjective` | Runtime/Reporters/JUnitXmlReporter.cs:88-101 | the `type` attribute (member name, or the integer for an undeclared code) identifies the exit code |
| `Reporters.Payload` | Runtime/Reporters/JUnitXmlReporter.cs:86-89 | an error or failure element carries the message and type attributes and the stack trace as its only CDATA node |
| `Reporters.CreateTestCase` | Runtime/Reporters/JUnitXmlReporter.cs:67-107 | the test case carries name, classname "DeNA.Anjin.Autopilot", time and status "Passed" exactly for `Normally`; it has no child for `Normally`, an `error` child exactly for error codes, a `failure` child exactly for failure codes, at most one child, holding the message and stack trace (null as empty) |
| `Reporters.CreateTestSuite` | Runtime/Reporters/JUnitXmlReporter.cs:109-128 | the suite wraps the test case; errors and failures are 1 exactly when the test case has that child; tests 1, id, disabled and skipped 0; time copied from the test case or "0.0" |
| `Reporters.CreateTestSuites` | Runtime/Reporters/JUnitXmlReporter.cs:130-146 | the root wraps the suite, copies its errors, failures and time (defaults "0", "0", "0.0") and has tests 1, disabled 0 |
| `Reporters.Report` | Runtime/Reporters/JUnitXmlReporter.cs:57-62 | the saved document is XML 1.0 in UTF-8 whose root `testsuites` holds one `testsuite` holding the run's test case |
| `Reporters.ReportCounts` | Runtime/Reporters/JUnitXmlReporter.cs:111-143 | in a report the root's counts equal the suite's; errors is 1 exactly for an error code, failures is 1 exactly for a failure code, never both; the time is the run's |
| `Reporters.ReportRoundTrip` | Runtime/Reporters/JUnitXmlReporter.cs:57-62 | reading a report back recovers the test name, the time, the verdict and, for a run that did not pass, message, type and stack trace |
| `Reporters.PostReportAsync` | Runtime/Reporters/JUnitXmlReporter.cs:41-65 | with no run active it throws and saves nothing; with a null or empty path it saves nothing; otherwise it saves exactly the report at the path |
| `Settings.AutopilotState.constructor` | Runtime/Settings/AutopilotState.cs:22-39 | a created state is not set, has no settings and exit code `Normally` |
| `Settings.AutopilotState.IsRunning` | Runtime/Settings/AutopilotState.cs:62-68 | a run is in progress exactly while settings are attached |
| `Settings.AutopilotState.Reset` | Runtime/Settings/AutopilotState.cs:44-53 | afterwards launch type is `NotSet`, settings null, exit code `Normally`, so not running; resetting a reset state changes nothing |
| `Settings.AutopilotStateRegistry.Instance` | Runtime/Settings/AutopilotState.cs:85-119 | never null; a set instance is returned with nothing created; otherwise the first found asset, or else a fresh reset state, becomes the instance |
| `Loggers.TimestampCache.constructor` | Runtime/Loggers/FileLoggerAsset.cs:71-74 | a new cache holds no text and frame 0 |
| `Loggers.TimestampCache.GetTimestamp` | Runtime/Loggers/FileLoggerAsset.cs:76-85 | the text is recomputed only when the frame changed; every call leaves the cache holding the returned text for its frame |
| `Loggers.Entry` | Runtime/Loggers/FileLoggerAsset.cs:113-118 | a line is the timestamp followed by the text, or the text alone without one |
| `Loggers.FileLogHandler.constructor` | Runtime/Loggers/FileLoggerAsset.cs:95-104 | a new handler has an empty file, is not disposed, and has a fresh timestamp cache exactly when timestamps are on |
| `Loggers.FileLogHandler.WriteEntry` | Runtime/Loggers/FileLoggerAsset.cs:113-118 | appends exactly one line: the frame's timestamp, if on, then the text; the cache then holds that timestamp for this frame |
| `Loggers.FileLogHandler.LogFormat` | Runtime/Loggers/FileLoggerAsset.cs:106-119 | after disposal the file and cache are unchanged; otherwise exactly one line is appended and the cache holds its timestamp for this frame, so a later entry in the same frame gets the same one |
| `Loggers.FileLogHandler.LogException` | Runtime/Loggers/FileLoggerAsset.cs:121-134 | after disposal the file and cache are unchanged; otherwise exactly one line with the exception's text is appended and the cache holds its timestamp for this frame |
| `Loggers.FileLogHandler.Dispose` | Runtime/Loggers/FileLoggerAsset.cs:136-140 | the handler is disposed and the file keeps what was written |
| `Loggers.FileLoggerAsset.constructor` | Runtime/Loggers/FileLoggerAsset.cs:30-45 | a new asset writes to "autopilot.log" with timestamps, filter `Log`, and no handler or logger |
| `Loggers.FileLoggerAsset.GetLogger` | Runtime/Loggers/FileLoggerAsset.cs:48-69 | a built logger is returned unchanged; with no path it returns null and opens nothing; otherwise the old handler is disposed and a fresh handler with an empty file, a fresh timestamp cache at frame 0 with no text, and a fresh logger over it are installed |
| `Loggers.ResetLoggers` | Runtime/Loggers/FileLoggerAsset.cs:143-154 | every asset's old handler is disposed with its file intact, its handler and logger become null, and its configuration is kept |

## Left out

- `ErrorHandlerAgent.Run` is not modelled. It subscribes to the log stream, waits until cancelled and unsubscribes; this is engine and task plumbing.
- The switch to the main thread and the fire-and-forget `Forget()` calls are not modelled. `HandleLog` returns the action instead.
- The `Logger.Log` call in `HandleLog` (Runtime/Agents/ErrorHandlerAgent.cs:116) and the diagnostics written with `Debug.Log`, `Debug.LogWarning` and `Debug.LogException` are not modelled. They only write to the log.
- The regular-expression engine is not modelled. It is a foreign library; `RegexEngine` stands in for it.
- `AutopilotInstance.TerminateAsync` and any "first terminate wins" latch are not part of this model. Their code is not among the modelled files.
- `JUnitXmlReporter.Initialize` is not modelled, nor `Time.unscaledTime`, `DateTime.Now` or the float and date formatting. Clocks and floats enter as rendered text.
- `XDocument.Save` and the XML text it writes (declaration, escaping, encoding) are not modelled. A saved document is its element tree.
- `StreamWriter` output, flushing and closing are not modelled. The file is the handler's `lines`.
- `PathUtils.GetOutputPath` and the command-line `Arguments` parser are not part of this model. Their results are inputs.
- Unity's `Logger` filtering by `filterLogType` and `string.Format` are not part of this model. A logger records its filter, and a handler receives the formatted text.
- The editor-only parts of `AutopilotState` are not modelled: `EditorUtility.SetDirty`, `SaveAssetIfDirty`, `IsInvalidState`, asset creation and the "multiple files" warning. They are editor services.
- `JudgeHandlingBehavior` and `IsIgnoreMessage` can run on any thread. The unsynchronised check-then-set of the regex list (Runtime/Agents/ErrorHandlerAgent.cs:172-175) is modelled as sequential, so a race that builds the list twice is not captured.
- `HandleLog` and `PostReportAsync` take the run state as a parameter instead of reading `AutopilotState.Instance` (Runtime/Agents/ErrorHandlerAgent.cs:121, Runtime/Reporters/JUnitXmlReporter.cs:44). The lazy creation that this read can trigger is modelled separately by `AutopilotStateRegistry.Instance`.
- `Xml.AttributeValue` and `Xml.ChildElement` carry no contract of their own. Their properties are the lemmas `AttributeValueSpec`, `AttributeValueAt` and `ChildElementSpec`, which keep the quantified facts out of the report builders' proofs.
- The Slack reporter and `AbstractReporter` are not part of this model. `AbstractReporter` is a bodiless declaration whose signature disagrees with the call in `HandleLog`; the model uses the `(message, stackTrace, exitCode)` shape of the JUnit override.
- The integer values of `ExitCode` and the members of `LaunchType` are not part of this model. A created `AutopilotState` is assumed to start with exit code `Normally`, the enum's default.
