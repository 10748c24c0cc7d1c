/** The hardware-test framework's result types and the base test: status predicates, the
    suite counters, `execute` with its setup/run/teardown protocol, `skip` and the
    assertion helpers. */
module TestBase {
  import opened Wrappers
  import opened Seqs

  datatype TestStatus = Pending | Running | Passed | Failed | Skipped | Error

  /** One test's result. The timestamp and the `expected`/`actual` payloads are not
      modelled; a raised exception is kept as its text. */
  datatype TestResult = TestResult(
    name: string,
    status: TestStatus,
    duration: real,
    message: string,
    details: string,
    error: Option<string>)
  {
    predicate IsPassed() {
      status == Passed
    }

    predicate IsFailed() {
      status == Failed
    }

    predicate IsSkipped() {
      status == Skipped
    }
  }

  /** At most one of `passed()`, `failed()` and `skipped()` holds, and none does for a
      pending, running or erroneous result. */
  lemma StatusPredicatesExclusive(t: TestResult)
    ensures !(t.IsPassed() && t.IsFailed()) && !(t.IsPassed() && t.IsSkipped()) && !(t.IsFailed() && t.IsSkipped())
    ensures t.status in {Pending, Running, Error} <==> !t.IsPassed() && !t.IsFailed() && !t.IsSkipped()
  {
  }

  /** The filter `t.status == status`. */
  function HasStatus(status: TestStatus): TestResult -> bool {
    (t: TestResult) => t.status == status
  }

  /** The six status counts of a list of results add up to its length. */
  lemma {:induction false} StatusCountsSum(rs: seq<TestResult>)
    ensures Count(rs, HasStatus(Passed)) + Count(rs, HasStatus(Failed)) + Count(rs, HasStatus(Skipped))
          + Count(rs, HasStatus(Error)) + Count(rs, HasStatus(Pending)) + Count(rs, HasStatus(Running)) == |rs|
    decreases |rs|
  {
    if rs != [] {
      StatusCountsSum(rs[1..]);
    }
  }

  /** No result has the status exactly when its count is zero. */
  lemma {:induction false} NoneCounted(rs: seq<TestResult>, status: TestStatus)
    ensures Count(rs, HasStatus(status)) == 0 <==> forall i | 0 <= i < |rs| :: rs[i].status != status
    decreases |rs|
  {
    if rs != [] {
      NoneCounted(rs[1..], status);
      assert forall i | 1 <= i < |rs| :: rs[1..][i - 1] == rs[i];
    }
  }

  /** `TestSuiteResult`: the run loop appends to its result list and closes it with an end
      time. Times are seconds on a clock supplied by the caller. */
  class TestSuiteResult {
    const name: string
    const startTime: real
    var testResults: seq<TestResult>
    var endTime: Option<real>

    constructor(name: string, startTime: real)
      ensures this.name == name && this.startTime == startTime
      ensures testResults == [] && endTime == None
    {
      this.name := name;
      this.startTime := startTime;
      testResults := [];
      endTime := None;
    }

    function Duration(): real
      reads this
    {
      if endTime.Some? then endTime.value - startTime else 0.0
    }

    function TotalTests(): nat
      reads this
    {
      |testResults|
    }

    function PassedTests(): nat
      reads this
    {
      Count(testResults, HasStatus(Passed))
    }

    function FailedTests(): nat
      reads this
    {
      Count(testResults, HasStatus(Failed))
    }

    function SkippedTests(): nat
      reads this
    {
      Count(testResults, HasStatus(Skipped))
    }

    function ErrorTests(): nat
      reads this
    {
      Count(testResults, HasStatus(Error))
    }

    /** `success_rate`, as an exact percentage. */
    function SuccessRate(): (r: real)
      reads this
      ensures TotalTests() == 0 ==> r == 0.0
      ensures 0.0 <= r <= 100.0
      ensures r == 100.0 <==> TotalTests() > 0 && PassedTests() == TotalTests()
    {
      if TotalTests() == 0 then 0.0
      else (PassedTests() as real / TotalTests() as real) * 100.0
    }

    predicate AllPassed()
      reads this
    {
      FailedTests() == 0 && ErrorTests() == 0 && TotalTests() > 0
    }

    /** Passed, failed, skipped and error results together are at most all the results:
        the rest are pending or running. */
    lemma CountsWithinTotal()
      ensures PassedTests() + FailedTests() + SkippedTests() + ErrorTests()
        == TotalTests() - Count(testResults, HasStatus(Pending)) - Count(testResults, HasStatus(Running))
      ensures PassedTests() + FailedTests() + SkippedTests() + ErrorTests() <= TotalTests()
    {
      StatusCountsSum(testResults);
    }

    /** `all_passed` holds exactly when there is a result and none failed or raised, so
        skipped, pending and running results do not spoil it. */
    lemma AllPassedMeaning()
      ensures AllPassed() <==>
        (|testResults| > 0 && forall i | 0 <= i < |testResults| :: testResults[i].status != Failed && testResults[i].status != Error)
    {
      NoneCounted(testResults, Failed);
      NoneCounted(testResults, Error);
    }
  }

  // ---------------------------------------------------------------------------------------
  // Running one test
  // ---------------------------------------------------------------------------------------

  /** What a subclass's hooks do when called: `setup` and `teardown` complete or raise,
      `run_test` returns a result or raises. */
  datatype Hooks = Hooks(setup: Outcome<string>, run: Result<TestResult, string>, teardown: Outcome<string>)

  /** The first exception `execute`'s guarded block meets, if any: setup, then the test,
      then teardown. */
  function Raised(h: Hooks): Option<string> {
    if h.setup.Fail? then Some(h.setup.error)
    else if h.run.Err? then Some(h.run.error)
    else if h.teardown.Fail? then Some(h.teardown.error)
    else None
  }

  /** The result `execute` returns for a test whose hooks behave as `h`, given the elapsed
      time on the clock at the end. */
  function Executed(name: string, h: Hooks, elapsed: real): (r: TestResult)
    ensures r.duration == elapsed
  {
    match Raised(h)
    case Some(e) => TestResult(name, Error, elapsed, "Test error: " + e, "", Some(e))
    case None => h.run.value.(duration := elapsed)
  }

  /** An exception from any hook becomes an error result carrying the test's name and the
      exception; otherwise the test's own result is kept, apart from its duration. */
  lemma ExecutedMeaning(name: string, h: Hooks, elapsed: real)
    ensures var r := Executed(name, h, elapsed);
      && (h.setup.Fail? ==> r.status == Error && r.name == name && r.error == Some(h.setup.error))
      && (h.setup.Pass? && h.run.Err? ==> r.status == Error && r.name == name && r.error == Some(h.run.error))
      && (h.setup.Pass? && h.run.Ok? && h.teardown.Fail? ==> r.status == Error && r.name == name && r.error == Some(h.teardown.error))
      && (h.setup.Pass? && h.run.Ok? && h.teardown.Pass? ==>
            r.name == h.run.value.name && r.status == h.run.value.status && r.message == h.run.value.message)
  {
  }

  /** A test whose hooks all complete keeps the status it reported, whatever it was. */
  lemma ExecutedKeepsStatus(name: string, h: Hooks, elapsed: real)
    requires Raised(h) == None
    ensures Executed(name, h, elapsed).status == h.run.value.status
    ensures Executed(name, h, elapsed).IsPassed() <==> h.run.value.IsPassed()
  {
  }

  /** `BaseTest`: a named test whose last result is kept. */
  class BaseTest {
    const name: string
    const description: string
    var result: Option<TestResult>

    constructor(name: string, description: string)
      ensures this.name == name && this.description == description && result == None
    {
      this.name := name;
      this.description := description;
      result := None;
    }

    /** `execute`: with hooks `h`, `elapsed` seconds between the two clock readings. */
    method Execute(h: Hooks, elapsed: real) returns (r: TestResult)
      modifies this
      ensures r == Executed(name, h, elapsed) && result == Some(r)
    {
      var raised: Option<string> := None;
      if h.setup.Fail? {
        raised := Some(h.setup.error);
      } else if h.run.Err? {
        raised := Some(h.run.error);
      } else {
        result := Some(h.run.value);
        if h.teardown.Fail? {
          raised := Some(h.teardown.error);
        }
      }
      if raised.Some? {
        result := Some(TestResult(name, Error, elapsed, "Test error: " + raised.value, "", raised));
      }
      result := Some(result.value.(duration := elapsed));
      r := result.value;
    }

    /** `skip`: a skipped result with the reason, or `"Test skipped"` when none is given. */
    function Skip(reason: string): (r: TestResult)
      ensures r.name == name && r.IsSkipped() && !r.IsPassed() && !r.IsFailed()
      ensures r.message != [] && (reason != [] ==> r.message == reason)
      ensures reason == [] ==> r.message == "Test skipped"
      ensures r.duration == 0.0 && r.error == None
    {
      TestResult(name, Skipped, 0.0, if reason != [] then reason else "Test skipped", "", None)
    }
  }

  // ---------------------------------------------------------------------------------------
  // Assertions
  // ---------------------------------------------------------------------------------------

  /** An `AssertionError`: the caller's message, or `None` for the helper's default text. */
  datatype AssertionError = AssertionError(message: Option<string>)

  /** `message or <default>`: an empty message falls back to the default. */
  function Failure(message: string): (r: Outcome<AssertionError>)
    ensures r.Fail? && (r.error.message.Some? <==> message != [])
    ensures message != [] ==> r.error.message == Some(message)
  {
    Fail(AssertionError(if message != [] then Some(message) else None))
  }

  function AssertTrue(condition: bool, message: string): (r: Outcome<AssertionError>)
    ensures r.Pass? <==> condition
  {
    if !condition then Failure(message) else Pass
  }

  function AssertFalse(condition: bool, message: string): (r: Outcome<AssertionError>)
    ensures r.Pass? <==> !condition
  {
    if condition then Failure(message) else Pass
  }

  function AssertEqual<T(==)>(actual: T, expected: T, message: string): (r: Outcome<AssertionError>)
    ensures r.Pass? <==> actual == expected
  {
    if actual != expected then Failure(message) else Pass
  }

  function AssertNotEqual<T(==)>(actual: T, expected: T, message: string): (r: Outcome<AssertionError>)
    ensures r.Pass? <==> actual != expected
  {
    if actual == expected then Failure(message) else Pass
  }

  /** `assert_in_range`: raises exactly when the value is outside the closed interval. */
  function AssertInRange(value: real, minValue: real, maxValue: real, message: string): (r: Outcome<AssertionError>)
    ensures r.Fail? <==> value < minValue || value > maxValue
  {
    if !(minValue <= value <= maxValue) then Failure(message) else Pass
  }

  /** Of `assert_equal` and `assert_not_equal` on the same values, exactly one raises, and
      they raise with the same message. */
  lemma EqualityAssertionsComplement<T>(actual: T, expected: T, message: string)
    ensures AssertEqual(actual, expected, message).Pass? != AssertNotEqual(actual, expected, message).Pass?
    ensures AssertEqual(actual, expected, message).Fail? ==> AssertEqual(actual, expected, message) == Failure(message)
    ensures AssertNotEqual(actual, expected, message).Fail? ==> AssertNotEqual(actual, expected, message) == Failure(message)
  {
  }

  /** An interval with its bounds crossed rejects every value. */
  lemma EmptyRangeRejects(value: real, minValue: real, maxValue: real, message: string)
    requires maxValue < minValue
    ensures AssertInRange(value, minValue, maxValue, message).Fail?
  {
  }
}
