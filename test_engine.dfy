/** The test engine: categories and the registry that organise tests, and the loop of
    `run_tests` that collects one result per test into a suite result. */
module TestEngine {
  import opened Wrappers
  import opened Seqs
  import opened TestBase

  // ---------------------------------------------------------------------------------------
  // Categories and the registry
  // ---------------------------------------------------------------------------------------

  /** `TestCategory`: a named list of tests. */
  class TestCategory {
    const name: string
    const description: string
    var tests: seq<BaseTest>

    constructor(name: string, description: string)
      ensures this.name == name && this.description == description && tests == []
    {
      this.name := name;
      this.description := description;
      tests := [];
    }

    /** `add_test` */
    method AddTest(test: BaseTest)
      modifies this
      ensures tests == old(tests) + [test]
      ensures Length() == old(Length()) + 1
    {
      tests := tests + [test];
    }

    /** `__len__` */
    function Length(): nat
      reads this
    {
      |tests|
    }
  }

  /** `get_category` over a list of categories: the first one with the name. */
  function FirstNamed(categories: seq<TestCategory>, name: string): Option<TestCategory>
    decreases |categories|
  {
    if categories == [] then None
    else if categories[0].name == name then Some(categories[0])
    else FirstNamed(categories[1..], name)
  }

  /** `FirstNamed` finds a category with the name and none before it, and finds nothing
      exactly when no category has the name. */
  lemma {:induction false} FirstNamedMeaning(categories: seq<TestCategory>, name: string)
    ensures var r := FirstNamed(categories, name);
      && (r.Some? ==> exists i | 0 <= i < |categories| :: categories[i] == r.value && r.value.name == name
                                                     && forall j | 0 <= j < i :: categories[j].name != name)
      && (r.None? <==> forall i | 0 <= i < |categories| :: categories[i].name != name)
    decreases |categories|
  {
    if categories != [] && categories[0].name != name {
      var rest := categories[1..];
      FirstNamedMeaning(rest, name);
      var r := FirstNamed(categories, name);
      if r.Some? {
        var i :| 0 <= i < |rest| && rest[i] == r.value && r.value.name == name && forall j | 0 <= j < i :: rest[j].name != name;
        assert categories[i + 1] == r.value;
        assert forall j | 1 <= j < i + 1 :: categories[j] == rest[j - 1];
      }
      assert forall i | 1 <= i < |categories| :: categories[i] == rest[i - 1];
    }
  }

  /** `get_all_tests`: the categories' tests one after another, in category order. */
  function AllTestsOf(categories: seq<TestCategory>): seq<BaseTest>
    reads categories
    decreases |categories|
  {
    if categories == [] then []
    else AllTestsOf(categories[..|categories| - 1]) + categories[|categories| - 1].tests
  }

  /** `total_tests`: the sum of the categories' lengths. */
  function TotalOf(categories: seq<TestCategory>): nat
    reads categories
    decreases |categories|
  {
    if categories == [] then 0
    else TotalOf(categories[..|categories| - 1]) + categories[|categories| - 1].Length()
  }

  /** The total is the number of tests `get_all_tests` returns. */
  lemma {:induction false} TotalIsAllTests(categories: seq<TestCategory>)
    ensures TotalOf(categories) == |AllTestsOf(categories)|
    decreases |categories|
  {
    if categories != [] {
      TotalIsAllTests(categories[..|categories| - 1]);
    }
  }

  /** A test is among all the tests exactly when some category holds it. */
  lemma {:induction false} AllTestsMembers(categories: seq<TestCategory>, t: BaseTest)
    ensures t in AllTestsOf(categories) <==> exists i | 0 <= i < |categories| :: t in categories[i].tests
    decreases |categories|
  {
    if categories != [] {
      var p := categories[..|categories| - 1];
      AllTestsMembers(p, t);
      assert forall i | 0 <= i < |p| :: p[i] == categories[i];
    }
  }

  /** `TestRegistry` */
  class TestRegistry {
    var categories: seq<TestCategory>

    constructor()
      ensures categories == []
    {
      categories := [];
    }

    /** `add_category` */
    method AddCategory(category: TestCategory)
      modifies this
      ensures categories == old(categories) + [category]
    {
      categories := categories + [category];
    }

    method GetCategory(name: string) returns (r: Option<TestCategory>)
      ensures r == FirstNamed(categories, name)
    {
      var i := 0;
      while i < |categories|
        invariant 0 <= i <= |categories|
        invariant FirstNamed(categories[i..], name) == FirstNamed(categories, name)
      {
        if categories[i].name == name {
          return Some(categories[i]);
        }
        assert categories[i..][1..] == categories[i + 1..];
        i := i + 1;
      }
      r := None;
    }

    method GetAllTests() returns (r: seq<BaseTest>)
      ensures r == AllTestsOf(categories)
    {
      r := [];
      var i := 0;
      while i < |categories|
        invariant 0 <= i <= |categories|
        invariant r == AllTestsOf(categories[..i])
      {
        assert categories[..i + 1][..i] == categories[..i];
        r := r + categories[i].tests;
        i := i + 1;
      }
      assert categories[..i] == categories;
    }

    /** `get_tests_by_category`: the named category's tests, or none for an unknown name. */
    method GetTestsByCategory(name: string) returns (r: seq<BaseTest>)
      ensures FirstNamed(categories, name).Some? ==> r == FirstNamed(categories, name).value.tests
      ensures FirstNamed(categories, name).None? ==> r == []
    {
      var category := GetCategory(name);
      if category.Some? {
        r := category.value.tests;
      } else {
        r := [];
      }
    }

    /** `get_category_names` */
    function CategoryNames(): (r: seq<string>)
      reads this
      ensures |r| == |categories| && forall i | 0 <= i < |r| :: r[i] == categories[i].name
    {
      seq(|categories|, i requires 0 <= i < |categories| reads this => categories[i].name)
    }

    /** A name finds a category exactly when it is among the category names. */
    lemma NamedIffListed(name: string)
      ensures FirstNamed(categories, name).Some? <==> name in CategoryNames()
    {
      FirstNamedMeaning(categories, name);
      var names := CategoryNames();
      if name in names {
        var i :| 0 <= i < |names| && names[i] == name;
        assert categories[i].name == name;
      }
    }

    method TotalTests() returns (n: nat)
      ensures n == TotalOf(categories)
      ensures n == |AllTestsOf(categories)|
    {
      n := 0;
      var i := 0;
      while i < |categories|
        invariant 0 <= i <= |categories|
        invariant n == TotalOf(categories[..i])
      {
        assert categories[..i + 1][..i] == categories[..i];
        n := n + categories[i].Length();
        i := i + 1;
      }
      assert categories[..i] == categories;
      TotalIsAllTests(categories);
    }
  }

  // ---------------------------------------------------------------------------------------
  // Running a list of tests
  // ---------------------------------------------------------------------------------------

  /** The result the loop records for one test: what its `execute` returned, or an error
      result naming the test and the exception when `execute` raised. */
  function Recorded(name: string, execution: Result<TestResult, string>): TestResult {
    match execution
    case Ok(r) => r
    case Err(e) => TestResult(name, Error, 0.0, "Unexpected error: " + e, "", Some(e))
  }

  /** The results of the first `n` tests, in order. */
  function RecordedUpTo(tests: seq<BaseTest>, executions: seq<Result<TestResult, string>>, n: nat): (r: seq<TestResult>)
    requires n <= |tests| && |executions| == |tests|
    ensures |r| == n
  {
    seq(n, i requires 0 <= i < n => Recorded(tests[i].name, executions[i]))
  }

  /** A test whose `execute` raised leaves an error result, so the suite cannot pass. */
  lemma RaisedSpoilsSuite(tests: seq<BaseTest>, executions: seq<Result<TestResult, string>>, n: nat, i: nat)
    requires n <= |tests| && |executions| == |tests| && i < n && executions[i].Err?
    ensures RecordedUpTo(tests, executions, n)[i].status == Error
    ensures RecordedUpTo(tests, executions, n)[i].name == tests[i].name
    ensures Count(RecordedUpTo(tests, executions, n), HasStatus(Error)) > 0
  {
    NoneCounted(RecordedUpTo(tests, executions, n), Error);
  }

  /** The number of tests run: all of them, unless the engine is stopped before test `k`. */
  function RunCount(stopAt: Option<nat>, total: nat): (n: nat)
    ensures n <= total
    ensures stopAt.None? ==> n == total
    ensures stopAt.Some? ==> n == if stopAt.value < total then stopAt.value else total
  {
    if stopAt.Some? && stopAt.value < total then stopAt.value else total
  }

  /** `TestEngine`. The signals it emits are not modelled. */
  class TestEngine {
    var running: bool
    var currentResult: TestSuiteResult?

    constructor()
      ensures !running && currentResult == null
    {
      running := false;
      currentResult := null;
    }

    /** `stop` */
    method Stop()
      modifies this
      ensures !running && currentResult == old(currentResult)
    {
      running := false;
    }

    /** `run_tests`. `executions[i]` is what `tests[i].execute()` returns or raises;
        `stopAt`, when present, is the index of the first test at which the engine finds
        itself stopped; the two clock readings are given. */
    method RunTests(tests: seq<BaseTest>, executions: seq<Result<TestResult, string>>, suiteName: string,
                    stopAt: Option<nat>, startTime: real, endTime: real) returns (suite: TestSuiteResult)
      requires |executions| == |tests|
      modifies this
      ensures fresh(suite) && currentResult == suite && !running
      ensures suite.name == suiteName && suite.startTime == startTime && suite.endTime == Some(endTime)
      ensures suite.testResults == RecordedUpTo(tests, executions, RunCount(stopAt, |tests|))
    {
      running := true;
      suite := new TestSuiteResult(suiteName, startTime);
      currentResult := suite;
      var i := 0;
      while i < |tests|
        invariant 0 <= i <= |tests| && i <= RunCount(stopAt, |tests|)
        invariant running && forall j | 0 <= j < i :: stopAt != Some(j)
        invariant currentResult == suite && fresh(suite)
        invariant suite.name == suiteName && suite.startTime == startTime && suite.endTime == None
        invariant suite.testResults == RecordedUpTo(tests, executions, i)
      {
        if stopAt == Some(i) {
          running := false;
        }
        if !running {
          break;
        }
        var result;
        match executions[i] {
          case Ok(r) =>
            result := r;
          case Err(e) =>
            result := TestResult(tests[i].name, Error, 0.0, "Unexpected error: " + e, "", Some(e));
        }
        suite.testResults := suite.testResults + [result];
        i := i + 1;
      }
      suite.endTime := Some(endTime);
      running := false;
    }
  }
}
