/**
 * The JUnit XML reporter: renders the outcome of one autopilot run as a
 * single test case, wrapped in a test suite, wrapped in a test-suites
 * element, in the JUnit layout the Jenkins JUnit format document describes.
 */
module Reporters {
  import opened Wrappers
  import opened Types
  import opened Xml
  import Text
  import Settings

  /** Name of the test suite and the test-suites element. */
  const SuiteName := "DeNA.Anjin"
  /** Class name of the test case. */
  const TestCaseClassName := "DeNA.Anjin.Autopilot"

  /** How the report classifies a run. */
  datatype Verdict = Pass | Errored | Failed

  /** The exit codes reported with an `error` element. */
  predicate IsErrorCode(e: ExitCode) {
    e == UnCatchExceptions || e == DetectErrorsInLog || e == AutopilotLaunchingFailed
  }

  /** The verdict of each exit code: every code other than `Normally` and the error codes is a failure. */
  function VerdictOf(e: ExitCode): (v: Verdict)
    ensures v == Pass <==> e == Normally
    ensures v == Errored <==> IsErrorCode(e)
    ensures v == Failed <==> (e == AutopilotFailed || e == AutopilotLifespanExpired || e.OtherExitCode?)
  {
    if e == Normally then Pass else if IsErrorCode(e) then Errored else Failed
  }

  /**
   * The `type` attribute of an error or failure: the member's name, or, for a
   * value the enum does not name, the integer value.
   */
  function TypeAttribute(e: ExitCode): (r: string)
    ensures |r| > 0
    ensures e.IsNamed() <==> 'A' <= r[0] <= 'Z'
  {
    if e.IsNamed() then e.Name() else Text.IntToString(e.code)
  }

  /** The type attribute identifies the exit code: no two codes share it. */
  lemma TypeAttributeInjective(e1: ExitCode, e2: ExitCode)
    requires TypeAttribute(e1) == TypeAttribute(e2)
    ensures e1 == e2
  {
    if e1.OtherExitCode? && e2.OtherExitCode? {
      Text.IntToStringInjective(e1.code, e2.code);
    }
  }

  /** An `error` or `failure` element: message and type attributes and the stack trace as CDATA. */
  predicate IsPayload(e: XElement, message: string, typeValue: string, stackTrace: string) {
    && AttributeValue(e.attributes, "message") == Some(message)
    && AttributeValue(e.attributes, "type") == Some(typeValue)
    && e.nodes == [CData(stackTrace)]
  }

  function Payload(tag: string, message: string, typeValue: string, stackTrace: string): (r: XElement)
    ensures r.name == tag && IsPayload(r, message, typeValue, stackTrace)
  {
    XElement(tag, [XAttribute("message", message), XAttribute("type", typeValue)], [CData(stackTrace)])
  }

  /**
   * `CreateTestCase`. A null message or stack trace is written as the empty
   * string; `time` is the elapsed time as the attribute renders it.
   */
  function CreateTestCase(name: string, time: string, message: Option<string>, stackTrace: Option<string>,
                          exitCode: ExitCode): (r: XElement)
    ensures r.name == "testcase"
    ensures AttributeValue(r.attributes, "name") == Some(name)
    ensures AttributeValue(r.attributes, "classname") == Some(TestCaseClassName)
    ensures AttributeValue(r.attributes, "time") == Some(time)
    ensures AttributeValue(r.attributes, "status") == Some(if exitCode == Normally then "Passed" else "Failed")
    ensures |r.nodes| <= 1 && (r.nodes == [] <==> exitCode == Normally)
    ensures ChildElement(r.nodes, "error").Some? <==> VerdictOf(exitCode) == Errored
    ensures ChildElement(r.nodes, "failure").Some? <==> VerdictOf(exitCode) == Failed
    ensures forall n :: n in r.nodes ==>
              n.Element? && IsPayload(n.element, message.GetOr(""), TypeAttribute(exitCode), stackTrace.GetOr(""))
  {
    var message := message.GetOr("");
    var stackTrace := stackTrace.GetOr("");
    var attributes := [
      XAttribute("name", name),
      XAttribute("classname", TestCaseClassName),
      XAttribute("time", time),
      XAttribute("status", if exitCode == Normally then "Passed" else "Failed")];
    var nodes :=
      match exitCode
      case Normally => []
      case UnCatchExceptions | DetectErrorsInLog | AutopilotLaunchingFailed =>
        [Element(Payload("error", message, exitCode.Name(), stackTrace))]
      case AutopilotFailed | AutopilotLifespanExpired =>
        [Element(Payload("failure", message, exitCode.Name(), stackTrace))]
      case OtherExitCode(code) =>
        [Element(Payload("failure", message, Text.IntToString(code), stackTrace))];
    assert AttributeValue(attributes, "name") == Some(name) by { AttributeValueAt(attributes, 0); }
    assert AttributeValue(attributes, "classname") == Some(TestCaseClassName) by { AttributeValueAt(attributes, 1); }
    assert AttributeValue(attributes, "time") == Some(time) by { AttributeValueAt(attributes, 2); }
    assert AttributeValue(attributes, "status") == Some(attributes[3].value) by { AttributeValueAt(attributes, 3); }
    XElement("testcase", attributes, nodes)
  }

  /**
   * `CreateTestSuite`: one test, no skipped or disabled ones; the error and
   * failure counts are those of the test case's children and the time is the
   * test case's. `timestamp` is the run's start as the attribute renders it.
   */
  function CreateTestSuite(name: string, timestamp: string, testCase: XElement): (r: XElement)
    ensures r.name == "testsuite" && r.nodes == [Element(testCase)]
    ensures AttributeValue(r.attributes, "name") == Some(name)
    ensures AttributeValue(r.attributes, "tests") == Some("1")
    ensures AttributeValue(r.attributes, "id") == Some("0")
    ensures AttributeValue(r.attributes, "disabled") == Some("0")
    ensures AttributeValue(r.attributes, "errors") ==
              Some(if ChildElement(testCase.nodes, "error").Some? then "1" else "0")
    ensures AttributeValue(r.attributes, "failures") ==
              Some(if ChildElement(testCase.nodes, "failure").Some? then "1" else "0")
    ensures AttributeValue(r.attributes, "skipped") == Some("0")
    ensures AttributeValue(r.attributes, "time") == Some(AttributeValue(testCase.attributes, "time").GetOr("0.0"))
    ensures AttributeValue(r.attributes, "timestamp") == Some(timestamp)
  {
    var errors := if ChildElement(testCase.nodes, "error").Some? then 1 else 0;
    var failures := if ChildElement(testCase.nodes, "failure").Some? then 1 else 0;
    Text.SmallIntStrings();
    var attributes := SuiteAttributes(name, Text.IntToString(1), Text.IntToString(0), Text.IntToString(0),
                                      Text.IntToString(errors), Text.IntToString(failures), Text.IntToString(0),
                                      AttributeValue(testCase.attributes, "time").GetOr("0.0"), timestamp);
    XElement("testsuite", attributes, [Element(testCase)])
  }

  /** The attributes of a test suite, in the order the reporter writes them, each found by its name. */
  function SuiteAttributes(name: string, tests: string, id: string, disabled: string, errors: string,
                           failures: string, skipped: string, time: string, timestamp: string): (r: seq<XAttribute>)
    ensures AttributeValue(r, "name") == Some(name)
    ensures AttributeValue(r, "tests") == Some(tests)
    ensures AttributeValue(r, "id") == Some(id)
    ensures AttributeValue(r, "disabled") == Some(disabled)
    ensures AttributeValue(r, "errors") == Some(errors)
    ensures AttributeValue(r, "failures") == Some(failures)
    ensures AttributeValue(r, "skipped") == Some(skipped)
    ensures AttributeValue(r, "time") == Some(time)
    ensures AttributeValue(r, "timestamp") == Some(timestamp)
  {
    var attributes := [
      XAttribute("name", name),
      XAttribute("tests", tests),
      XAttribute("id", id),
      XAttribute("disabled", disabled),
      XAttribute("errors", errors),
      XAttribute("failures", failures),
      XAttribute("skipped", skipped),
      XAttribute("time", time),
      XAttribute("timestamp", timestamp)];
    assert AttributeValue(attributes, "name") == Some(name) by { AttributeValueAt(attributes, 0); }
    assert AttributeValue(attributes, "tests") == Some(tests) by { AttributeValueAt(attributes, 1); }
    assert AttributeValue(attributes, "id") == Some(id) by { AttributeValueAt(attributes, 2); }
    assert AttributeValue(attributes, "disabled") == Some(disabled) by { AttributeValueAt(attributes, 3); }
    assert AttributeValue(attributes, "errors") == Some(errors) by { AttributeValueAt(attributes, 4); }
    assert AttributeValue(attributes, "failures") == Some(failures) by { AttributeValueAt(attributes, 5); }
    assert AttributeValue(attributes, "skipped") == Some(skipped) by { AttributeValueAt(attributes, 6); }
    assert AttributeValue(attributes, "time") == Some(time) by { AttributeValueAt(attributes, 7); }
    assert AttributeValue(attributes, "timestamp") == Some(timestamp) by { AttributeValueAt(attributes, 8); }
    attributes
  }

  /** `CreateTestSuites`: copies the suite's counts and time (with defaults) around the one suite. */
  function CreateTestSuites(name: string, testSuite: XElement): (r: XElement)
    ensures r.name == "testsuites" && r.nodes == [Element(testSuite)]
    ensures AttributeValue(r.attributes, "name") == Some(name)
    ensures AttributeValue(r.attributes, "disabled") == Some("0")
    ensures AttributeValue(r.attributes, "errors") == Some(AttributeValue(testSuite.attributes, "errors").GetOr("0"))
    ensures AttributeValue(r.attributes, "failures") == Some(AttributeValue(testSuite.attributes, "failures").GetOr("0"))
    ensures AttributeValue(r.attributes, "tests") == Some("1")
    ensures AttributeValue(r.attributes, "time") == Some(AttributeValue(testSuite.attributes, "time").GetOr("0.0"))
  {
    var errors := AttributeValue(testSuite.attributes, "errors").GetOr("0");
    var failures := AttributeValue(testSuite.attributes, "failures").GetOr("0");
    var time := AttributeValue(testSuite.attributes, "time").GetOr("0.0");
    var attributes := [
      XAttribute("name", name),
      XAttribute("disabled", Text.IntToString(0)),
      XAttribute("errors", errors),
      XAttribute("failures", failures),
      XAttribute("tests", Text.IntToString(1)),
      XAttribute("time", time)];
    assert AttributeValue(attributes, "name") == Some(name) by { AttributeValueAt(attributes, 0); }
    assert AttributeValue(attributes, "disabled") == Some(Text.IntToString(0)) by { AttributeValueAt(attributes, 1); }
    assert AttributeValue(attributes, "errors") == Some(errors) by { AttributeValueAt(attributes, 2); }
    assert AttributeValue(attributes, "failures") == Some(failures) by { AttributeValueAt(attributes, 3); }
    assert AttributeValue(attributes, "tests") == Some(Text.IntToString(1)) by { AttributeValueAt(attributes, 4); }
    assert AttributeValue(attributes, "time") == Some(time) by { AttributeValueAt(attributes, 5); }
    XElement("testsuites", attributes, [Element(testSuite)])
  }

  /** The document `PostReportAsync` saves. */
  function Report(testCaseName: string, time: string, message: Option<string>, stackTrace: Option<string>,
                  exitCode: ExitCode, timestamp: string): (r: XDocument)
    ensures r.version == "1.0" && r.encoding == "utf-8"
    ensures r.root.name == "testsuites" && |r.root.nodes| == 1 && r.root.nodes[0].Element?
    ensures var suite := r.root.nodes[0].element;
      suite.name == "testsuite" && |suite.nodes| == 1 && suite.nodes[0].Element? &&
      suite.nodes[0].element == CreateTestCase(testCaseName, time, message, stackTrace, exitCode)
  {
    var testCase := CreateTestCase(testCaseName, time, message, stackTrace, exitCode);
    var testSuite := CreateTestSuite(SuiteName, timestamp, testCase);
    XDocument("1.0", "utf-8", CreateTestSuites(SuiteName, testSuite))
  }

  /**
   * The counts at both levels of a report agree with the exit code: one
   * error for an error code, one failure for a failure code, never both.
   */
  lemma ReportCounts(testCaseName: string, time: string, message: Option<string>, stackTrace: Option<string>,
                     exitCode: ExitCode, timestamp: string)
    ensures var root := Report(testCaseName, time, message, stackTrace, exitCode, timestamp).root;
      var suite := root.nodes[0].element;
      && AttributeValue(root.attributes, "errors") == AttributeValue(suite.attributes, "errors")
      && AttributeValue(root.attributes, "failures") == AttributeValue(suite.attributes, "failures")
      && AttributeValue(root.attributes, "time") == Some(time)
      && (AttributeValue(root.attributes, "errors") == Some("1") <==> VerdictOf(exitCode) == Errored)
      && (AttributeValue(root.attributes, "failures") == Some("1") <==> VerdictOf(exitCode) == Failed)
      && !(AttributeValue(root.attributes, "errors") == Some("1") && AttributeValue(root.attributes, "failures") == Some("1"))
  {
  }

  /** The error or failure detail a report carries. */
  datatype Detail = Detail(message: string, typeValue: string, stackTrace: string)

  /** What a reader of a report recovers from it. */
  datatype Summary = Summary(testCaseName: string, time: string, verdict: Verdict, detail: Option<Detail>)

  function ReadDetail(e: XElement): Option<Detail> {
    var message := AttributeValue(e.attributes, "message");
    var typeValue := AttributeValue(e.attributes, "type");
    if message.Some? && typeValue.Some? && |e.nodes| == 1 && e.nodes[0].CData? then
      Some(Detail(message.value, typeValue.value, e.nodes[0].text))
    else None
  }

  /** Reads a report back: the test case of the suite of the root, its verdict and its detail. */
  function ReadReport(doc: XDocument): Option<Summary> {
    var suite := ChildElement(doc.root.nodes, "testsuite");
    if suite.None? then None else
    var testCase := ChildElement(suite.value.nodes, "testcase");
    if testCase.None? then None else
    var name := AttributeValue(testCase.value.attributes, "name");
    var time := AttributeValue(testCase.value.attributes, "time");
    if name.None? || time.None? then None else
    var error := ChildElement(testCase.value.nodes, "error");
    var failure := ChildElement(testCase.value.nodes, "failure");
    var verdict := if error.Some? then Errored else if failure.Some? then Failed else Pass;
    var detail := if error.Some? then ReadDetail(error.value)
                  else if failure.Some? then ReadDetail(failure.value)
                  else None;
    Some(Summary(name.value, time.value, verdict, detail))
  }

  /**
   * Writing then reading a report recovers the test name, the time, the
   * verdict, and for a run that did not pass the message, the exit code's
   * type attribute and the stack trace (null ones as empty strings).
   */
  lemma ReportRoundTrip(testCaseName: string, time: string, message: Option<string>, stackTrace: Option<string>,
                        exitCode: ExitCode, timestamp: string)
    ensures ReadReport(Report(testCaseName, time, message, stackTrace, exitCode, timestamp)) ==
      Some(Summary(testCaseName, time, VerdictOf(exitCode),
                   if exitCode == Normally then None
                   else Some(Detail(message.GetOr(""), TypeAttribute(exitCode), stackTrace.GetOr("")))))
  {
    var testCase := CreateTestCase(testCaseName, time, message, stackTrace, exitCode);
    var testSuite := CreateTestSuite(SuiteName, timestamp, testCase);
    var root := CreateTestSuites(SuiteName, testSuite);
    assert ChildElement(root.nodes, "testsuite") == Some(testSuite);
    assert ChildElement(testSuite.nodes, "testcase") == Some(testCase);
    if exitCode != Normally {
      var child := testCase.nodes[0];
      assert child in testCase.nodes;
      if VerdictOf(exitCode) == Errored {
        assert ChildElement(testCase.nodes, "error") == Some(child.element);
      } else {
        assert ChildElement(testCase.nodes, "failure") == Some(child.element);
      }
    }
  }

  /** The files the reporter has saved, by path. */
  class OutputFiles {
    var documents: map<string, XDocument>

    constructor ()
      ensures documents == map[]
    {
      documents := map[];
    }
  }

  /**
   * `PostReportAsync`. `resolvedPath` is the output path after resolution
   * against the reporter's `outputPath` and the command line (`None` for
   * null); `elapsed` and `startTimestamp` are the rendered elapsed time and
   * run start. Fails when no run is active; saves nothing when the path is
   * null or empty; otherwise saves the report at the path.
   */
  method PostReportAsync(state: Settings.AutopilotState, message: Option<string>, stackTrace: Option<string>,
                         exitCode: ExitCode, resolvedPath: Option<string>, elapsed: string, startTimestamp: string,
                         files: OutputFiles)
    returns (r: Result<(), Failure>)
    modifies files
    ensures state.settings == null ==> r == Err(InvalidOperation(NotRunningMessage)) && unchanged(files)
    ensures state.settings != null && resolvedPath.GetOr("") == "" ==> r == Ok(()) && unchanged(files)
    ensures state.settings != null && resolvedPath.GetOr("") != "" ==>
              r == Ok(()) &&
              files.documents == old(files.documents)[resolvedPath.value :=
                Report(state.settings.name, elapsed, message, stackTrace, exitCode, startTimestamp)]
  {
    var settings := state.settings;
    if settings == null {
      return Err(InvalidOperation(NotRunningMessage));
    }
    if resolvedPath.None? || resolvedPath.value == "" {
      return Ok(());
    }
    var testCase := CreateTestCase(settings.name, elapsed, message, stackTrace, exitCode);
    var testSuite := CreateTestSuite(SuiteName, startTimestamp, testCase);
    var testSuites := CreateTestSuites(SuiteName, testSuite);
    files.documents := files.documents[resolvedPath.value := XDocument("1.0", "utf-8", testSuites)];
    r := Ok(());
  }
}
