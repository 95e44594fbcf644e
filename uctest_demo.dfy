/** The demonstration program src/uCTestDemo.c as a closed instance of the
    framework: two registered test functions, the runner that executes them,
    and the summary decision of its driver. */
module UCTestDemo {
  import opened UCTest

  /** The message both demo tests pass to UC_ASSERT_MSG (TestCase1 carries
      TestCase2's text in the program as well). */
  const MESSAGE: string := "TestCase2: Detailed information ..."

  /** The two summary lines the driver prints with printf. */
  const ALL_PASSED: string := "All test cases successfully passed.\n"
  const ERROR_DETECTED: string := "Error detected.\n"

  /** A test function with one assertion that holds; it returns true. */
  function TestCase1(): TestFunction
  {
    TestFunction("TestCase1", [Assertion(MESSAGE, true)], true)
  }

  /** A test function with one assertion that fails; its own final
      statement returns true. */
  function TestCase2(): TestFunction
  {
    TestFunction("TestCase2", [Assertion(MESSAGE, false)], true)
  }

  /** The tests RunTests registers, in order. */
  function Registered(): seq<TestFunction>
  {
    [TestCase1(), TestCase2()]
  }

  /** What the driver prints and returns, apart from the framework's own
      output: the summary line, the counter value it reports, and its
      return value. */
  datatype Report = Report(framework: seq<string>, summary: string, executed: uint32, exitStatus: int)

  /** The summary branch of the driver: the success line only when the
      runner returned true and NO_ERROR_DETECTED holds. */
  function Summary(runResult: bool, final: State): string
  {
    if runResult && NoErrorDetected(final) then ALL_PASSED else ERROR_DETECTED
  }

  /** For any registered tests run from the initial globals, the driver
      reports success exactly when every test returns true and no assertion
      of any of them is false. */
  lemma SummaryOfRun(cfg: Config, tests: seq<TestFunction>)
    ensures var r := RunOutcome(cfg, Initial, tests);
            var clean := FirstFalseTest(cfg.failFast, tests) == |tests| && !FailureAmong(tests, |tests|);
            Summary(r.value, r.state) == ALL_PASSED <==> clean
  {
    RunOutcomeSpec(cfg, Initial, tests);
  }

  /** TestCase1 leaves the flag and the counter as they were and returns
      true, under either setting. */
  lemma TestCase1Passes(cfg: Config, s: State)
    ensures var r := TestOutcome(cfg, s, TestCase1());
            && r.value && r.state.flag == s.flag && r.state.count == s.count
            && r.state.log == s.log + (if cfg.usePrintf then [MESSAGE, ASSERT_OK] else [])
  {
    TestOutcomeSpec(cfg, s, TestCase1());
    assert !HasFailure(TestCase1().body);
    assert Evaluated(cfg.failFast, TestCase1().body) == 1;
    assert TestCase1().body[..1] == TestCase1().body;
  }

  /** TestCase2 always sets the flag; it returns false under fail-fast and
      its own true otherwise. */
  lemma TestCase2Outcome(cfg: Config, s: State)
    ensures var r := TestOutcome(cfg, s, TestCase2());
            && r.value == !cfg.failFast && r.state.flag && r.state.count == s.count
            && r.state.log == s.log + (if cfg.usePrintf then [MESSAGE, ASSERT_NOK] else [])
  {
    BodyControl(cfg, s, TestCase2().body);
    BodyLog(cfg, s, TestCase2().body);
    assert HasFailure(TestCase2().body) by {
      assert !TestCase2().body[0].result;
    }
    assert Evaluated(cfg.failFast, TestCase2().body) == 1;
    assert TestCase2().body[..1] == TestCase2().body;
  }

  /** The first runner step: TestCase1 counted, passed and reported. */
  lemma FirstStep(cfg: Config)
    ensures StepOutcome(cfg, Initial, TestCase1())
              == Outcome(State(1, false, if cfg.usePrintf then [MESSAGE, ASSERT_OK, "TestCase1", TEST_OK] else []),
                         true)
  {
    TestCase1Passes(cfg, State(1, false, []));
  }

  /** The second runner step: TestCase2 counted, its failure latched, and
      its return value reported. */
  lemma SecondStep(cfg: Config, log: seq<string>)
    ensures StepOutcome(cfg, State(1, false, log), TestCase2())
              == Outcome(State(2, true, log + if cfg.usePrintf
                                              then [MESSAGE, ASSERT_NOK, "TestCase2", TestTag(!cfg.failFast)]
                                              else []),
                         !cfg.failFast)
  {
    TestCase2Outcome(cfg, State(2, false, log));
  }

  /** From the initial globals both tests are invoked in order: the counter
      ends at 2 and the flag set; the runner returns true without fail-fast
      and false with it; the output is each test's assertion line followed
      by its name and tag. */
  lemma RegisteredRun(cfg: Config)
    ensures var r := RunOutcome(cfg, Initial, Registered());
            && r.value == !cfg.failFast
            && r.state.count == 2
            && r.state.flag
            && r.state.log == (if cfg.usePrintf
                               then [MESSAGE, ASSERT_OK, "TestCase1", TEST_OK,
                                     MESSAGE, ASSERT_NOK, "TestCase2", TestTag(!cfg.failFast)]
                               else [])
  {
    var first := StepOutcome(cfg, Initial, TestCase1());
    FirstStep(cfg);
    SecondStep(cfg, first.state.log);
    assert Registered()[1..] == [TestCase2()];
    assert RunOutcome(cfg, Initial, Registered()) == RunOutcome(cfg, first.state, [TestCase2()]);
  }

  /** RunTests: EXECUTE_TEST_CASE(TestCase1), EXECUTE_TEST_CASE(TestCase2),
      then `return true;`, each macro returning false from here when its
      test fails. */
  method RunTests(ctx: RunContext) returns (ok: bool)
    modifies ctx
    ensures Outcome(ctx.Snapshot(), ok) == RunOutcome(ctx.cfg, old(ctx.Snapshot()), Registered())
  {
    ghost var s0 := ctx.Snapshot();
    ok := ctx.ExecuteTestCase(TestCase1());
    if !ok {
      return false;
    }
    assert Registered()[1..] == [TestCase2()];
    ok := ctx.ExecuteTestCase(TestCase2());
    if !ok {
      return false;
    }
    return true;
  }

  /** The driver: run the tests from freshly initialised globals, choose the
      summary line, report the counter and return 0. With these two tests it
      always reports an error, after executing both of them. */
  method RunMain(cfg: Config) returns (report: Report)
    ensures report.summary == ERROR_DETECTED
    ensures report.executed == 2
    ensures report.exitStatus == 0
    ensures report.framework == RunOutcome(cfg, Initial, Registered()).state.log
  {
    var ctx := new RunContext(cfg);
    var passed := RunTests(ctx);
    RegisteredRun(cfg);
    var summary := Summary(passed, ctx.Snapshot());
    report := Report(ctx.log, summary, ctx.testFunctionCount, 0);
  }
}
