# uCTest in Dafny

uCTest is a unit-test micro-framework for embedded targets. It is made of a
handful of C preprocessor macros and two process-wide globals. Test functions
state assertions with `UC_ASSERT_MSG`. A runner function registers them with
`EXECUTE_TEST_CASE`. The counter `g_testFunctionCount` counts the tests
invoked. The flag `g_errorDetected` latches the first failed assertion. Two
build switches shape a run:

- `UC_FAIL_FAST` makes a failed assertion return false from its test function;
- `USE_PRINTF` selects whether `UC_PRINTF_FUNCTION` prints or expands to nothing.

This project models that state machine and the demonstration program that
uses it.

- `uctest.dfy`, module `UCTest` (include/uCTest.h):
  - The framework's state is a value `State(count, flag, log)`. `count` is a
    32-bit unsigned counter. `log` has one entry per call of the print
    function.
  - The switches are a `Config(failFast, usePrintf)`.
  - A test function is data: its name, its assertions in order (message and
    condition), and the value its author returns at its end.
  - Each macro is a function over `State` that follows the macro statement
    by statement: `AssertOutcome`, `BodyOutcome`, `TestOutcome`,
    `StepOutcome`, `RunOutcome`.
  - The class `RunContext` holds the globals and updates them in place. Its
    methods `AssertMsg`, `InvokeTest`, `ExecuteTestCase` and `RunTests` are
    proved to agree with those functions.
  - The hidden `return` statements inside the macros become explicit
    results. `AssertMsg` returns whether the test goes on. `ExecuteTestCase`
    returns whether the runner goes on. The caller checks each result and
    returns early itself.
  - Lemmas relate the functions to declarative descriptions of a run:
    - which assertions are evaluated (`Evaluated`, `FirstFailure`);
    - what a test returns (`TestReturns`);
    - which tests are invoked (`FirstFalseTest`, `Invoked`);
    - what is printed (`AssertionsLog`, two lines per assertion).
- `uctest_demo.dfy`, module `UCTestDemo` (src/uCTestDemo.c):
  - `TestCase1` and `TestCase2` are test functions, and `RunTests` registers
    them in that order.
  - `RunMain` models the driver. It starts from the initial globals, runs
    the tests, picks the summary line and returns 0.
  - The final state is proved under both fail-fast settings.

## Model

| member | source | states |
|---|---|---|
| UCTest.ConcatStrings | include/uCTest.h:47 | the result is the left string, one space, then the right string |
| UCTest.Increment | include/uCTest.h:83 | `++g_testFunctionCount` on a `uint32_t`: the result is the old value plus one, modulo 2^32 |
| UCTest.AssertOutcome | include/uCTest.h:55-71 | an assertion prints its message and then " [OK]\r\n" or " [NOK]\r\n"; a false one sets the flag, a true one leaves it; the counter is unchanged; the test goes on unless the assertion failed under fail-fast |
| UCTest.FirstFailure | include/uCTest.h:62-69 | the index of the first false assertion: all before it hold, and it fails (or it is the length) |
| UCTest.FirstFalseTest | include/uCTest.h:84-88 | the index of the first test that returns false: all tests before it return true |
| UCTest.AssertionsLogAt | include/uCTest.h:57-64 | with printing on, a sequence of assertions prints two lines per assertion: its message, then its tag |
| UCTest.AssertionsLogAppend | include/uCTest.h:57-64 | the output of consecutive assertions is the concatenation of their outputs |
| UCTest.BodyControl | include/uCTest.h:62-69 | a test body returns early, with false, exactly under fail-fast when one of its assertions is false; the flag ends up set exactly when some assertion is false, under either setting; the counter is untouched |
| UCTest.BodyLog | include/uCTest.h:55-71 | a test body prints the assertions it evaluates, in order; under fail-fast it stops after the first false one |
| UCTest.TestOutcomeSpec | src/uCTestDemo.c:17-27 | calling a test function: counter unchanged, flag latched by any false assertion, evaluated assertions printed, result given by `TestReturns` |
| UCTest.FailFastTruncatesTest | include/uCTest.h:57-69 | under fail-fast, a test with a false assertion returns false and sets the flag; with printing on, its output is the earlier assertions' lines, then that assertion's message and " [NOK]\r\n"; later assertions are neither evaluated nor printed; with printing off it prints nothing |
| UCTest.RunToCompletionTest | include/uCTest.h:62-66 | without fail-fast, every assertion is evaluated and printed, the flag is latched by any false one, and the test returns its author's value |
| UCTest.FailFastIsIrrelevant | include/uCTest.h:55-71 | a test none of whose assertions fails behaves identically under both fail-fast settings |
| UCTest.StepOutcomeSpec | include/uCTest.h:81-92 | a runner step increments the counter once, whatever the test returns; it prints the test's own output, then the test's name and "\t[OK]\r\n" or "\t[NOK]\r\n" |
| UCTest.StepControl | include/uCTest.h:83-84 | a runner step's counter, flag and continuation: counter incremented, flag latched by the test's assertions, go on exactly when the test returned true |
| UCTest.RunResult | include/uCTest.h:84-91 | the runner returns true exactly when no invoked test returns false |
| UCTest.RunCount | include/uCTest.h:83-88 | the counter grows by the number of tests invoked, modulo 2^32: up to and including the first test that returns false, and no further |
| UCTest.RunFlag | include/uCTest.h:62-65 | after a run, the flag is set exactly when it was set before or an invoked test has a false assertion |
| UCTest.RunOutcomeSpec | include/uCTest.h:81-92 | the runner's result, counter and flag together, as in RunResult, RunCount and RunFlag |
| UCTest.StepLogSpec | include/uCTest.h:81-92 | one runner step prints its test's evaluated assertions, then the test's name and tag, and nothing else; it goes on exactly when the test returns true |
| UCTest.RunLogSteps | include/uCTest.h:84-91 | a run prints each invoked step's output in turn, and nothing after a test that returns false |
| UCTest.RunPrintedInvoked | include/uCTest.h:84-88 | that output is exactly the output of the first `Invoked` tests, one step after another |
| UCTest.RunLog | include/uCTest.h:81-92 | the whole output of a run: for each invoked test in order, its evaluated assertions (message and tag each), then its name and tag; tests after the first that returns false print nothing |
| UCTest.RunOnlyAppends | include/uCTest.h:26-30 | a run only appends to the output; with printing off the output is unchanged |
| UCTest.AllTestsPass | include/uCTest.h:81-92 | when every test returns true with no false assertion: the runner returns true, the counter grows by the number of tests, and the flag is unchanged |
| UCTest.StopsAtFirstFalseTest | include/uCTest.h:84-88 | when test k (from 0) is the first to return false: the runner returns false, and the counter grows by exactly k + 1, so later tests are never invoked |
| UCTest.FailFastStopsRun | include/uCTest.h:32-39 | under fail-fast, no test before the last invoked one has a false assertion; a false assertion in an invoked test makes the runner return false |
| UCTest.FlagMonotonic | include/uCTest.h:65 | once set, the flag stays set through a whole run |
| UCTest.NoErrorDetectedAfterRun | include/uCTest.h:94-98 | after a run from the initial state, `NO_ERROR_DETECTED` holds exactly when no invoked test has a false assertion, whatever the tests returned |
| UCTest.PrintingIsTransparent | include/uCTest.h:26-30 | with printing off nothing is output; result, counter and flag equal those of the printing run under the same fail-fast setting |
| UCTest.RunContext.constructor | src/uCTestDemo.c:29-31 | the globals start with counter 0, flag false and no output |
| UCTest.RunContext.Print | include/uCTest.h:26-30 | `UC_PRINTF_FUNCTION` appends its text when printing is on, and does nothing otherwise |
| UCTest.RunContext.AssertMsg | include/uCTest.h:55-71 | the in-place assertion: the counter is unchanged; the flag becomes old flag or the condition's failure; the message and tag are appended; the result says whether the test goes on; agrees with `AssertOutcome` |
| UCTest.RunContext.InvokeTest | src/uCTestDemo.c:17-27 | runs a test function's assertions in order and returns `!g_errorDetected` at once when told to stop; counter unchanged, flag latched by its false assertions, result `TestReturns`; agrees with `TestOutcome` |
| UCTest.RunContext.ExecuteTestCase | include/uCTest.h:81-92 | increments the counter before invoking the test, then prints its name and tag; returns what the test returned; agrees with `StepOutcome` |
| UCTest.RunContext.RunTests | include/uCTest.h:81-92 | one `EXECUTE_TEST_CASE` per registered test, stopping at the first that returns false; agrees with `RunOutcome` |
| UCTestDemo.SummaryOfRun | src/uCTestDemo.c:46-53 | for any registered tests run from the initial globals, the driver prints "All test cases successfully passed." exactly when every test returns true and no assertion of any test is false; otherwise it prints "Error detected." |
| UCTestDemo.TestCase1Passes | src/uCTestDemo.c:17-21 | TestCase1 returns true and leaves the flag and counter unchanged, under either setting; it prints its message and " [OK]\r\n" |
| UCTestDemo.TestCase2Outcome | src/uCTestDemo.c:23-27 | TestCase2 always sets the flag; it returns false under fail-fast and true otherwise; it prints its message and " [NOK]\r\n" |
| UCTestDemo.FirstStep | src/uCTestDemo.c:37 | the first runner step from the initial globals: counter 1, flag false, TestCase1 reported as passed |
| UCTestDemo.SecondStep | src/uCTestDemo.c:38 | the second runner step: counter 2, flag set, TestCase2 reported with its return value |
| UCTestDemo.RegisteredRun | src/uCTestDemo.c:35-41 | from the initial globals, both tests run in order: counter 2, flag set, runner result true exactly without fail-fast; the exact output under printing is given |
| UCTestDemo.RunTests | src/uCTestDemo.c:35-41 | `EXECUTE_TEST_CASE(TestCase1)`, then `EXECUTE_TEST_CASE(TestCase2)`, then `return true`; agrees with `RunOutcome` on the registered tests |
| UCTestDemo.RunMain | src/uCTestDemo.c:43-58 | the driver always reports "Error detected." and 2 executed tests, and returns 0, under every setting |

## Left out

- Real `printf` and stdio are left out. Output is a sequence of strings, one per call of the print function. Each entry is the argument passed to that function, which is a `printf` format string, not the text it prints: a `%` in an assertion message or a test name is not interpreted.
- The `PRIu32` formatting of the driver's last line is left out. `Report.executed` holds the counter value that line prints.
- The driver's two summary lines go through `printf` directly, not through `UC_PRINTF_FUNCTION`. So they are printed whatever `USE_PRINTF` says. `Report.summary` holds the chosen line, apart from the framework's output.
- Preprocessor mechanics are left out:
  - `#UNIT_TEST_FUNCTION` stringification becomes the test's `name` field;
  - the `do { } while (0)` wrappers are dropped;
  - the include guards and `extern "C"` are dropped;
  - the `#if` selection of the switches becomes the fields of `Config`.
- A test function is modelled only as a sequence of `UC_ASSERT_MSG` statements with precomputed conditions, then a fixed return value. Other code inside a test body is not modelled. Neither is a condition that depends on earlier output.
- The process exit status as seen by the operating system is left out. `RunMain` only returns 0.
- The phases of a run (not started, running, stopped early, completed clean, completed with failure) are not named in the model. They are the combinations of the runner's result and the final flag.
- The comment above `EXECUTE_TEST_CASE` (include/uCTest.h:76-77) says the macro returns false when an error is detected in the test. The code (include/uCTest.h:84-88) returns false only when the test function returns false. Without fail-fast a test with a failed assertion may still return true, and the run goes on. The model follows the code (`RunResult`, `RegisteredRun`); the comment on `NO_ERROR_DETECTED` (include/uCTest.h:94-97) shows this behaviour is meant, since the driver checks the flag separately.
- The runner never reads the failure flag: it stops only when a test returns false. Under fail-fast a failed assertion ends the run only because the failing test itself returns false (`FailFastStopsRun`).
