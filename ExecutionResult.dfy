/**
 * The record of one command execution (run through a local shell or over ssh):
 * whether the caller judged it successful, its exit code, the captured output
 * lines, the first of those lines, and a process identifier when one exists.
 *
 * The record is immutable: it is built once from four caller-supplied values
 * and every accessor reads a final field.
 */
module ExecutionIo {
  import opened Wrappers

  /** Java's `int`: the exit code is a signed 32-bit value. */
  newtype Int32 = x: int | -0x8000_0000 <= x < 0x8000_0000

  /** What the Java constructor throws when handed a null list of lines. */
  datatype ConstructionError = NullPointerException

  /** The derivation rule of the cached first line: the head of the lines, absent when there are none. */
  function HeadOrAbsent(lines: seq<string>): (head: Option<string>)
    ensures head.Some? <==> |lines| > 0
    ensures head.Some? ==> head.value == lines[0]
  {
    if |lines| > 0 then Some(lines[0]) else None
  }

  /**
   * The fields of an execution result. `firstLine` is a cache that the
   * constructor `New` derives from `resultLines`; `Valid` is the invariant
   * that it never drifts from them. `processID` and `firstLine` are nullable
   * (`None` is null). `successful` and `exitCode` are independent signals.
   */
  datatype ExecutionResult = ExecutionResult(
    processID: Option<string>,
    successful: bool,
    resultLines: seq<string>,
    firstLine: Option<string>,
    exitCode: Int32)
  {
    /** The cache invariant kept by every result the constructor builds. */
    ghost predicate Valid()
    {
      firstLine == HeadOrAbsent(resultLines)
    }

    function GetProcessID(): (pid: Option<string>)
    {
      processID
    }

    function GetExitCode(): (code: Int32)
    {
      exitCode
    }

    /** The first output line: present exactly when there is output, and then the first line of it. */
    function GetFirstLine(): (line: Option<string>)
      requires Valid()
      ensures line.Some? <==> |GetResultLines()| > 0
      ensures line.Some? ==> line.value == GetResultLines()[0]
    {
      firstLine
    }

    function GetResultLines(): (lines: seq<string>)
    {
      resultLines
    }

    function IsSuccessful(): (ok: bool)
    {
      successful
    }

    /** The second spelling of `IsSuccessful`: the stored success flag, whatever the exit code. */
    function GetSuccessful(): (ok: bool)
      ensures ok == successful
    {
      IsSuccessful()
    }

    /** Deprecated alias of `GetExitCode`, kept for older callers. */
    function GetErrorNumber(): (n: Int32)
      ensures n == GetExitCode()
    {
      exitCode
    }
  }

  /**
   * The Java constructor for a non-null list: stores the four arguments
   * verbatim, without reconciling `successful` with `exitCode`, and derives
   * the first line once.
   */
  function New(successful: bool, exitCode: Int32, resultLines: seq<string>, processID: Option<string>): (r: ExecutionResult)
    ensures r.Valid()
    ensures r.IsSuccessful() == successful && r.GetSuccessful() == successful
    ensures r.GetExitCode() == exitCode && r.GetErrorNumber() == exitCode
    ensures r.GetResultLines() == resultLines
    ensures r.GetProcessID() == processID
    ensures |resultLines| > 0 ==> r.GetFirstLine() == Some(resultLines[0])
    ensures |resultLines| == 0 ==> r.GetFirstLine() == None
  {
    ExecutionResult(processID, successful, resultLines, HeadOrAbsent(resultLines), exitCode)
  }

  /**
   * The Java constructor over a nullable list: the only way it fails is a
   * null list, whose size it reads unconditionally; otherwise it is `New`.
   */
  function Construct(successful: bool, exitCode: Int32, resultLines: Option<seq<string>>, processID: Option<string>)
    : (r: Result<ExecutionResult, ConstructionError>)
    ensures r.Failure? <==> resultLines.None?
    ensures resultLines.None? ==> r == Failure(NullPointerException)
    ensures resultLines.Some? ==> r == Success(New(successful, exitCode, resultLines.value, processID))
  {
    match resultLines
    case None => Failure(NullPointerException)
    case Some(lines) => Success(New(successful, exitCode, lines, processID))
  }

  /**
   * The cache invariant characterises exactly the results the constructor can
   * build: every constructed result keeps it, and every record that keeps it
   * is the result of constructing it from its own stored values.
   */
  lemma ValidIsReachable(r: ExecutionResult)
    ensures r.Valid() <==> exists s: bool, c: Int32, lines: seq<string>, pid: Option<string> :: r == New(s, c, lines, pid)
  {
    if r.Valid() {
      assert r == New(r.successful, r.exitCode, r.resultLines, r.processID);
    }
  }

  /**
   * No reconciliation between the two success signals: every combination of
   * success flag and exit code, for any output and process id, is reported by
   * some constructed result exactly as given.
   */
  lemma NoReconciliation(successful: bool, exitCode: Int32, resultLines: seq<string>, processID: Option<string>)
    ensures exists r: ExecutionResult ::
      r.Valid() && r.IsSuccessful() == successful && r.GetExitCode() == exitCode
      && r.GetResultLines() == resultLines && r.GetProcessID() == processID
  {
    var r := New(successful, exitCode, resultLines, processID);
    assert r.IsSuccessful() == successful && r.GetExitCode() == exitCode;
  }

  /** A run judged successful with exit code 1 reports exactly those two values. */
  lemma SuccessfulDespiteExitCodeOne(lines: seq<string>, processID: Option<string>)
    ensures New(true, 1, lines, processID).IsSuccessful()
    ensures New(true, 1, lines, processID).GetExitCode() == 1
  {
  }

  /** A failed run with exit code 0, no output and no process id has neither a first line nor an id. */
  lemma FailedWithoutOutput()
    ensures var r := New(false, 0, [], None);
      !r.IsSuccessful() && r.GetExitCode() == 0 && r.GetFirstLine() == None && r.GetProcessID() == None
  {
  }

  /** Two lines of output and a process id: the first line is the head, the lines and id come back unchanged. */
  lemma HelloWorld()
    ensures var r := New(true, 0, ["hello", "world"], Some("1234"));
      r.GetFirstLine() == Some("hello") && r.GetResultLines() == ["hello", "world"] && r.GetProcessID() == Some("1234")
  {
  }
}
