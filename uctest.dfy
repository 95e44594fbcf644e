/** A model of the uCTest micro-framework (include/uCTest.h).

    The header keeps its state in two globals, g_testFunctionCount and
    g_errorDetected, and reports through UC_PRINTF_FUNCTION. Here that state is
    a value `State(count, flag, log)`, where `log` holds one entry per call of
    the print function. The two build-time switches, UC_FAIL_FAST and
    USE_PRINTF, are the fields of a `Config`.

    Each macro is given twice: as a function over `State` that follows the
    macro statement by statement (AssertOutcome, BodyOutcome, TestOutcome,
    StepOutcome, RunOutcome), and as a method of the class RunContext that
    updates the globals in place and is proved to agree with that function.
    The lemmas relate the functions to independent, declarative descriptions
    of what a run does. */
module UCTest {

  /** g_testFunctionCount is a uint32_t. */
  const COUNTER_MODULUS: int := 0x1_0000_0000
  newtype uint32 = x: int | 0 <= x < 0x1_0000_0000

  /** The tags UC_ASSERT_MSG prints after the message. */
  const ASSERT_OK: string := " [OK]\r\n"
  const ASSERT_NOK: string := " [NOK]\r\n"

  /** The tags EXECUTE_TEST_CASE prints after the test function's name. */
  const TEST_OK: string := "\t[OK]\r\n"
  const TEST_NOK: string := "\t[NOK]\r\n"

  /** The build-time switches UC_FAIL_FAST and USE_PRINTF. */
  datatype Config = Config(failFast: bool, usePrintf: bool)

  /** One UC_ASSERT_MSG(message, result) statement. */
  datatype Assertion = Assertion(message: string, result: bool)

  /** A test function: its name as stringified by EXECUTE_TEST_CASE, the
      assertion statements of its body in order, and the value its author
      returns when the body runs to its end. */
  datatype TestFunction = TestFunction(name: string, body: seq<Assertion>, returnValue: bool)

  /** The framework's globals and the output produced so far. */
  datatype State = State(count: uint32, flag: bool, log: seq<string>)

  /** A state together with a boolean: whether execution goes on after an
      assertion, what a test function returned, or what the runner returned. */
  datatype Outcome = Outcome(state: State, value: bool)

  /** How a test body ends: by reaching its final `return`, or by the hidden
      `return !g_errorDetected;` of a failing assertion under fail-fast. */
  datatype BodyEnd = FellThrough(state: State) | ReturnedEarly(state: State, value: bool)

  /** The globals as src/uCTestDemo.c initialises them, with nothing printed. */
  const Initial: State := State(0, false, [])

  /** CONCAT_STRINGS: the two strings with one space between them. */
  function ConcatStrings(left: string, right: string): (r: string)
    ensures |r| == |left| + 1 + |right|
    ensures r[..|left|] == left && r[|left|] == ' ' && r[|left| + 1..] == right
  {
    left + " " + right
  }

  /** One call of UC_PRINTF_FUNCTION: appends the text when printing is on,
      and expands to nothing when it is off. */
  function Emit(cfg: Config, log: seq<string>, text: string): seq<string>
  {
    if cfg.usePrintf then log + [text] else log
  }

  /** `++g_testFunctionCount` on a uint32_t. */
  function Increment(c: uint32): (r: uint32)
    ensures r as int == (c as int + 1) % COUNTER_MODULUS
  {
    if c as int == COUNTER_MODULUS - 1 then 0 else c + 1
  }

  function AssertTag(result: bool): string
  {
    if result then ASSERT_OK else ASSERT_NOK
  }

  function TestTag(passed: bool): string
  {
    if passed then TEST_OK else TEST_NOK
  }

  /** What a run of the given assertions prints when printing is on: each
      message followed by its tag. With printing off, nothing. */
  function AssertionsLog(printing: bool, asserts: seq<Assertion>): seq<string>
    decreases |asserts|
  {
    if !printing || asserts == [] then []
    else [asserts[0].message, AssertTag(asserts[0].result)] + AssertionsLog(printing, asserts[1..])
  }

  /** What EXECUTE_TEST_CASE prints after the test function has returned. */
  function ReportLog(cfg: Config, name: string, passed: bool): seq<string>
  {
    if cfg.usePrintf then [name, TestTag(passed)] else []
  }

  /** What one EXECUTE_TEST_CASE prints: the assertions its test evaluates,
      then the test's name and tag. */
  function StepLog(cfg: Config, t: TestFunction): seq<string>
  {
    AssertionsLog(cfg.usePrintf, t.body[..Evaluated(cfg.failFast, t.body)])
      + ReportLog(cfg, t.name, TestReturns(cfg.failFast, t))
  }

  /** What the given runner steps print, one after another. */
  function StepsLog(cfg: Config, tests: seq<TestFunction>): seq<string>
    decreases |tests|
  {
    if tests == [] then [] else StepLog(cfg, tests[0]) + StepsLog(cfg, tests[1..])
  }

  /** UC_ASSERT_MSG: print the message and a tag; on a false result latch the
      failure flag. The outcome's value tells the enclosing test function
      whether to go on (false only for a failed assertion under fail-fast). */
  function AssertOutcome(cfg: Config, s: State, a: Assertion): (r: Outcome)
    ensures r.state.count == s.count
    ensures r.state.flag == (s.flag || !a.result)
    ensures r.state.log == s.log + AssertionsLog(cfg.usePrintf, [a])
    ensures r.value == (a.result || !cfg.failFast)
  {
    var printed := Emit(cfg, s.log, a.message);
    if a.result then
      Outcome(State(s.count, s.flag, Emit(cfg, printed, ASSERT_OK)), true)
    else
      Outcome(State(s.count, true, Emit(cfg, printed, ASSERT_NOK)), !cfg.failFast)
  }

  /** The assertion statements of a test body, one after another. A stop
      requested by UC_ASSERT_MSG returns `!g_errorDetected` from the test. */
  function BodyOutcome(cfg: Config, s: State, body: seq<Assertion>): BodyEnd
    decreases |body|
  {
    if body == [] then FellThrough(s)
    else
      var step := AssertOutcome(cfg, s, body[0]);
      if !step.value then ReturnedEarly(step.state, !step.state.flag)
      else BodyOutcome(cfg, step.state, body[1..])
  }

  /** Calling a test function: its body, then its author's return value
      unless the body returned early. */
  function TestOutcome(cfg: Config, s: State, t: TestFunction): Outcome
  {
    match BodyOutcome(cfg, s, t.body)
    case FellThrough(after) => Outcome(after, t.returnValue)
    case ReturnedEarly(after, v) => Outcome(after, v)
  }

  /** EXECUTE_TEST_CASE: count the test, call it, print its name and a tag.
      The value is whether the runner goes on to its next statement. */
  function StepOutcome(cfg: Config, s: State, t: TestFunction): Outcome
  {
    var called := TestOutcome(cfg, State(Increment(s.count), s.flag, s.log), t);
    var after := called.state;
    Outcome(State(after.count, after.flag, Emit(cfg, Emit(cfg, after.log, t.name), TestTag(called.value))),
            called.value)
  }

  /** A runner function made of EXECUTE_TEST_CASE statements followed by
      `return true;`. */
  function RunOutcome(cfg: Config, s: State, tests: seq<TestFunction>): Outcome
    decreases |tests|
  {
    if tests == [] then Outcome(s, true)
    else
      var step := StepOutcome(cfg, s, tests[0]);
      if !step.value then step else RunOutcome(cfg, step.state, tests[1..])
  }

  /** NO_ERROR_DETECTED. */
  function NoErrorDetected(s: State): bool
  {
    !s.flag
  }

  // ---------------------------------------------------------------------
  // Declarative description of a run

  predicate HasFailure(asserts: seq<Assertion>)
  {
    exists i :: 0 <= i < |asserts| && !asserts[i].result
  }

  /** The index of the first false assertion, or the length if none fails. */
  function FirstFailure(asserts: seq<Assertion>): (k: nat)
    ensures k <= |asserts|
    ensures forall j :: 0 <= j < k ==> asserts[j].result
    ensures k < |asserts| ==> !asserts[k].result
    decreases |asserts|
  {
    if asserts == [] then 0
    else if !asserts[0].result then 0
    else 1 + FirstFailure(asserts[1..])
  }

  /** How many assertions of a body are evaluated: all of them, except that
      under fail-fast the first false one is the last. */
  function Evaluated(failFast: bool, asserts: seq<Assertion>): (n: nat)
    ensures n <= |asserts|
  {
    if failFast && FirstFailure(asserts) < |asserts| then FirstFailure(asserts) + 1 else |asserts|
  }

  /** What a test function returns: its author's value, unless fail-fast
      made a failed assertion return false. */
  predicate TestReturns(failFast: bool, t: TestFunction)
  {
    t.returnValue && !(failFast && HasFailure(t.body))
  }

  /** The index of the first test that returns false, or the length if none does. */
  function FirstFalseTest(failFast: bool, tests: seq<TestFunction>): (k: nat)
    ensures k <= |tests|
    ensures forall j :: 0 <= j < k ==> TestReturns(failFast, tests[j])
    ensures k < |tests| ==> !TestReturns(failFast, tests[k])
    decreases |tests|
  {
    if tests == [] then 0
    else if !TestReturns(failFast, tests[0]) then 0
    else 1 + FirstFalseTest(failFast, tests[1..])
  }

  /** How many registered tests the runner invokes. */
  function Invoked(failFast: bool, tests: seq<TestFunction>): (n: nat)
    ensures n <= |tests|
  {
    var k := FirstFalseTest(failFast, tests);
    if k < |tests| then k + 1 else |tests|
  }

  /** Some assertion among the first n tests is false. */
  predicate FailureAmong(tests: seq<TestFunction>, n: nat)
  {
    exists i :: 0 <= i < n && i < |tests| && HasFailure(tests[i].body)
  }

  // ---------------------------------------------------------------------
  // Lemmas

  lemma FirstFailureIsFailure(asserts: seq<Assertion>)
    ensures HasFailure(asserts) <==> FirstFailure(asserts) < |asserts|
  {
    if HasFailure(asserts) {
      var i :| 0 <= i < |asserts| && !asserts[i].result;
      assert FirstFailure(asserts) <= i;
    }
  }

  /** With printing on, the output of a sequence of assertions is two lines
      per assertion: at 2i the i-th message, at 2i + 1 its tag. */
  lemma {:induction false} AssertionsLogAt(asserts: seq<Assertion>, i: nat)
    requires i < |asserts|
    ensures |AssertionsLog(true, asserts)| == 2 * |asserts|
    ensures AssertionsLog(true, asserts)[2 * i] == asserts[i].message
    ensures AssertionsLog(true, asserts)[2 * i + 1] == AssertTag(asserts[i].result)
    decreases |asserts|
  {
    if i > 0 {
      AssertionsLogAt(asserts[1..], i - 1);
    } else if |asserts| > 1 {
      AssertionsLogAt(asserts[1..], 0);
    }
  }

  lemma {:induction false} AssertionsLogAppend(printing: bool, xs: seq<Assertion>, ys: seq<Assertion>)
    ensures AssertionsLog(printing, xs + ys) == AssertionsLog(printing, xs) + AssertionsLog(printing, ys)
    decreases |xs|
  {
    if printing && xs != [] {
      assert (xs + ys)[1..] == xs[1..] + ys;
      AssertionsLogAppend(printing, xs[1..], ys);
    } else if printing {
      assert xs + ys == ys;
    }
  }

  lemma HasFailureCons(body: seq<Assertion>)
    requires body != []
    ensures HasFailure(body) <==> !body[0].result || HasFailure(body[1..])
  {
    if HasFailure(body) && body[0].result {
      var i :| 0 <= i < |body| && !body[i].result;
      assert !body[1..][i - 1].result;
    }
    if HasFailure(body[1..]) {
      var i :| 0 <= i < |body[1..]| && !body[1..][i].result;
      assert !body[i + 1].result;
    }
  }

  /** A first assertion that holds leaves one fewer assertion to evaluate in
      the rest of the body. */
  lemma EvaluatedCons(failFast: bool, body: seq<Assertion>)
    requires body != [] && body[0].result
    ensures Evaluated(failFast, body) == 1 + Evaluated(failFast, body[1..])
  {
    assert FirstFailure(body) == 1 + FirstFailure(body[1..]);
  }

  /** How a body ends: it returns early, with false, exactly under fail-fast
      when one of its assertions is false; the flag ends up set exactly when
      it was set before or some assertion of the body is false (so under
      either setting); the counter is untouched. */
  lemma {:induction false} BodyControl(cfg: Config, s: State, body: seq<Assertion>)
    ensures var r := BodyOutcome(cfg, s, body);
            && r.state.count == s.count
            && r.state.flag == (s.flag || HasFailure(body))
            && r.ReturnedEarly? == (cfg.failFast && HasFailure(body))
            && (r.ReturnedEarly? ==> !r.value)
    decreases |body|
  {
    if body != [] {
      HasFailureCons(body);
      var step := AssertOutcome(cfg, s, body[0]);
      if step.value {
        BodyControl(cfg, step.state, body[1..]);
      }
    }
  }

  /** What a body prints: the assertions it evaluates, in order. Under
      fail-fast it stops after the first false one, so nothing after that is
      printed; otherwise every assertion is printed. */
  lemma {:induction false} BodyLog(cfg: Config, s: State, body: seq<Assertion>)
    ensures BodyOutcome(cfg, s, body).state.log
              == s.log + AssertionsLog(cfg.usePrintf, body[..Evaluated(cfg.failFast, body)])
    decreases |body|
  {
    if body != [] {
      var a, rest := body[0], body[1..];
      var step := AssertOutcome(cfg, s, a);
      var n := Evaluated(cfg.failFast, body);
      if step.value {
        BodyLog(cfg, step.state, rest);
        var m := Evaluated(cfg.failFast, rest);
        if a.result {
          EvaluatedCons(cfg.failFast, body);
        } else {
          assert n == |body| && m == |rest|;
        }
        assert body[..n] == [a] + rest[..m];
        AssertionsLogAppend(cfg.usePrintf, [a], rest[..m]);
      } else {
        assert FirstFailure(body) == 0;
        assert body[..n] == [a];
      }
    }
  }

  /** A call of a test function leaves the counter alone, latches the flag
      exactly when one of its assertions is false (under either fail-fast
      setting), prints the evaluated assertions, and returns TestReturns. */
  lemma TestOutcomeSpec(cfg: Config, s: State, t: TestFunction)
    ensures TestOutcome(cfg, s, t) ==
      Outcome(State(s.count, s.flag || HasFailure(t.body),
                    s.log + AssertionsLog(cfg.usePrintf, t.body[..Evaluated(cfg.failFast, t.body)])),
              TestReturns(cfg.failFast, t))
  {
    BodyControl(cfg, s, t.body);
    BodyLog(cfg, s, t.body);
  }

  /** Under fail-fast a test with a false assertion returns false, and what
      it prints ends with that assertion's message and " [NOK]\r\n": the
      assertions after it are neither evaluated nor printed. */
  lemma FailFastTruncatesTest(cfg: Config, s: State, t: TestFunction)
    requires cfg.failFast && HasFailure(t.body)
    ensures var k := FirstFailure(t.body);
            var r := TestOutcome(cfg, s, t);
            && !r.value && r.state.flag
            && r.state.log == s.log + AssertionsLog(cfg.usePrintf, t.body[..k])
                                    + (if cfg.usePrintf then [t.body[k].message, ASSERT_NOK] else [])
  {
    var k := FirstFailure(t.body);
    BodyControl(cfg, s, t.body);
    BodyLog(cfg, s, t.body);
    FirstFailureIsFailure(t.body);
    assert t.body[..k + 1] == t.body[..k] + [t.body[k]];
    AssertionsLogAppend(cfg.usePrintf, t.body[..k], [t.body[k]]);
    assert AssertionsLog(cfg.usePrintf, [t.body[k]]) == (if cfg.usePrintf then [t.body[k].message, ASSERT_NOK] else []);
  }

  /** Without fail-fast every assertion is evaluated and printed, and the
      test returns its author's value even after a failed assertion. */
  lemma RunToCompletionTest(cfg: Config, s: State, t: TestFunction)
    requires !cfg.failFast
    ensures var r := TestOutcome(cfg, s, t);
            && r.value == t.returnValue && r.state.flag == (s.flag || HasFailure(t.body))
            && r.state.log == s.log + AssertionsLog(cfg.usePrintf, t.body)
  {
    BodyControl(cfg, s, t.body);
    BodyLog(cfg, s, t.body);
    assert t.body[..|t.body|] == t.body;
  }

  /** A test function none of whose assertions fails behaves the same under
      both fail-fast settings. */
  lemma FailFastIsIrrelevant(cfg: Config, s: State, t: TestFunction)
    requires !HasFailure(t.body)
    ensures TestOutcome(cfg, s, t) == TestOutcome(Config(!cfg.failFast, cfg.usePrintf), s, t)
  {
    FirstFailureIsFailure(t.body);
    assert Evaluated(cfg.failFast, t.body) == Evaluated(!cfg.failFast, t.body) == |t.body|;
    TestOutcomeSpec(cfg, s, t);
    TestOutcomeSpec(Config(!cfg.failFast, cfg.usePrintf), s, t);
  }

  /** EXECUTE_TEST_CASE increments the counter once whatever the test
      returns, and prints the test's own output, then its name and the tag. */
  lemma StepOutcomeSpec(cfg: Config, s: State, t: TestFunction)
    ensures var v := TestReturns(cfg.failFast, t);
            StepOutcome(cfg, s, t) ==
              Outcome(State(Increment(s.count), s.flag || HasFailure(t.body),
                            s.log + AssertionsLog(cfg.usePrintf, t.body[..Evaluated(cfg.failFast, t.body)])
                                  + ReportLog(cfg, t.name, v)),
                      v)
  {
    TestOutcomeSpec(cfg, State(Increment(s.count), s.flag, s.log), t);
  }

  /** The counter, flag and result of one EXECUTE_TEST_CASE, without its output. */
  lemma StepControl(cfg: Config, s: State, t: TestFunction)
    ensures var r := StepOutcome(cfg, s, t);
            && r.value == TestReturns(cfg.failFast, t)
            && r.state.count == Increment(s.count)
            && r.state.flag == (s.flag || HasFailure(t.body))
  {
    BodyControl(cfg, State(Increment(s.count), s.flag, s.log), t.body);
  }

  lemma WrapAdd(c: uint32, n: nat)
    ensures ((Increment(c) as int) + n) % COUNTER_MODULUS == (c as int + 1 + n) % COUNTER_MODULUS
  {
    if c as int + 1 == COUNTER_MODULUS {
      assert (c as int + 1 + n) % COUNTER_MODULUS == n % COUNTER_MODULUS;
    }
  }

  /** A first test that returns true leaves the rest of the run to decide. */
  lemma InvokedCons(failFast: bool, tests: seq<TestFunction>)
    requires tests != [] && TestReturns(failFast, tests[0])
    ensures FirstFalseTest(failFast, tests) == 1 + FirstFalseTest(failFast, tests[1..])
    ensures Invoked(failFast, tests) == 1 + Invoked(failFast, tests[1..])
  {
  }

  lemma FailureAmongCons(tests: seq<TestFunction>, m: nat)
    requires tests != []
    ensures FailureAmong(tests, 1 + m) <==> HasFailure(tests[0].body) || FailureAmong(tests[1..], m)
  {
    var rest := tests[1..];
    if FailureAmong(tests, 1 + m) {
      var i :| 0 <= i < 1 + m && i < |tests| && HasFailure(tests[i].body);
      if i > 0 { assert HasFailure(rest[i - 1].body); }
    }
    if FailureAmong(rest, m) {
      var i :| 0 <= i < m && i < |rest| && HasFailure(rest[i].body);
      assert HasFailure(tests[i + 1].body);
    }
    if HasFailure(tests[0].body) {
      assert 0 < 1 + m;
    }
  }

  /** The runner invokes the registered tests in order up to and including
      the first one that returns false, and no further: it returns true
      exactly when none returns false. */
  lemma {:induction false} RunResult(cfg: Config, s: State, tests: seq<TestFunction>)
    ensures RunOutcome(cfg, s, tests).value == (FirstFalseTest(cfg.failFast, tests) == |tests|)
    decreases |tests|
  {
    if tests != [] {
      var step := StepOutcome(cfg, s, tests[0]);
      StepControl(cfg, s, tests[0]);
      if step.value {
        RunResult(cfg, step.state, tests[1..]);
        InvokedCons(cfg.failFast, tests);
      }
    }
  }

  /** The counter grows, modulo 2^32, by the number of tests invoked. */
  lemma {:induction false} RunCount(cfg: Config, s: State, tests: seq<TestFunction>)
    ensures RunOutcome(cfg, s, tests).state.count as int
              == (s.count as int + Invoked(cfg.failFast, tests)) % COUNTER_MODULUS
    decreases |tests|
  {
    if tests != [] {
      var step := StepOutcome(cfg, s, tests[0]);
      StepControl(cfg, s, tests[0]);
      if step.value {
        RunCount(cfg, step.state, tests[1..]);
        InvokedCons(cfg.failFast, tests);
        WrapAdd(s.count, Invoked(cfg.failFast, tests[1..]));
      }
    }
  }

  /** After a run the flag is set exactly when it was set before or one of
      the invoked tests has a false assertion. */
  lemma {:induction false} RunFlag(cfg: Config, s: State, tests: seq<TestFunction>)
    ensures RunOutcome(cfg, s, tests).state.flag == (s.flag || FailureAmong(tests, Invoked(cfg.failFast, tests)))
    decreases |tests|
  {
    if tests != [] {
      var step := StepOutcome(cfg, s, tests[0]);
      StepControl(cfg, s, tests[0]);
      if !step.value {
        FailureAmongCons(tests, 0);
      } else {
        RunFlag(cfg, step.state, tests[1..]);
        InvokedCons(cfg.failFast, tests);
        FailureAmongCons(tests, Invoked(cfg.failFast, tests[1..]));
      }
    }
  }

  /** The two lemmas above together. */
  lemma RunOutcomeSpec(cfg: Config, s: State, tests: seq<TestFunction>)
    ensures var r := RunOutcome(cfg, s, tests);
            var n := Invoked(cfg.failFast, tests);
            && r.value == (FirstFalseTest(cfg.failFast, tests) == |tests|)
            && r.state.count as int == (s.count as int + n) % COUNTER_MODULUS
            && r.state.flag == (s.flag || FailureAmong(tests, n))
  {
    RunResult(cfg, s, tests);
    RunCount(cfg, s, tests);
    RunFlag(cfg, s, tests);
  }

  /** One runner step appends exactly StepLog to the output. */
  lemma StepLogSpec(cfg: Config, s: State, t: TestFunction)
    ensures StepOutcome(cfg, s, t).state.log == s.log + StepLog(cfg, t)
    ensures StepOutcome(cfg, s, t).value == TestReturns(cfg.failFast, t)
  {
    StepOutcomeSpec(cfg, s, t);
  }

  lemma StepsLogCons(cfg: Config, tests: seq<TestFunction>, m: nat)
    requires m < |tests|
    ensures StepsLog(cfg, tests[..1 + m]) == StepLog(cfg, tests[0]) + StepsLog(cfg, tests[1..][..m])
  {
    var invoked := tests[..1 + m];
    assert invoked[0] == tests[0] && invoked[1..] == tests[1..][..m];
  }

  /** What a run prints, step by step: each step's output, and after a test
      that returns false nothing more. This is the step-by-step form of
      StepsLog over the invoked tests, which remains the reference; it is
      used only as a stepping stone in the proof of RunLog. */
  function RunPrinted(cfg: Config, tests: seq<TestFunction>): seq<string>
    decreases |tests|
  {
    if tests == [] then []
    else StepLog(cfg, tests[0])
           + if TestReturns(cfg.failFast, tests[0]) then RunPrinted(cfg, tests[1..]) else []
  }

  lemma {:induction false} RunLogSteps(cfg: Config, s: State, tests: seq<TestFunction>)
    ensures RunOutcome(cfg, s, tests).state.log == s.log + RunPrinted(cfg, tests)
    decreases |tests|
  {
    if tests != [] {
      var step := StepOutcome(cfg, s, tests[0]);
      StepLogSpec(cfg, s, tests[0]);
      if step.value {
        RunLogSteps(cfg, step.state, tests[1..]);
      }
    }
  }

  /** What a run prints is the output of exactly the invoked tests. */
  lemma {:induction false} RunPrintedInvoked(cfg: Config, tests: seq<TestFunction>)
    ensures RunPrinted(cfg, tests) == StepsLog(cfg, tests[..Invoked(cfg.failFast, tests)])
    decreases |tests|
  {
    if tests != [] {
      if TestReturns(cfg.failFast, tests[0]) {
        RunPrintedInvoked(cfg, tests[1..]);
        InvokedCons(cfg.failFast, tests);
        StepsLogCons(cfg, tests, Invoked(cfg.failFast, tests[1..]));
      } else {
        assert Invoked(cfg.failFast, tests) == 1;
        StepsLogCons(cfg, tests, 0);
      }
    }
  }

  /** The whole output of a run: what the invoked tests print, each followed
      by its name and tag, in order; the tests after the first one that
      returns false print nothing. */
  lemma RunLog(cfg: Config, s: State, tests: seq<TestFunction>)
    ensures RunOutcome(cfg, s, tests).state.log
              == s.log + StepsLog(cfg, tests[..Invoked(cfg.failFast, tests)])
  {
    RunLogSteps(cfg, s, tests);
    RunPrintedInvoked(cfg, tests);
  }

  /** Output is only ever appended, and with printing off nothing is. */
  lemma {:induction false} RunOnlyAppends(cfg: Config, s: State, tests: seq<TestFunction>)
    ensures s.log <= RunOutcome(cfg, s, tests).state.log
    ensures !cfg.usePrintf ==> RunOutcome(cfg, s, tests).state.log == s.log
    decreases |tests|
  {
    if tests != [] {
      var step := StepOutcome(cfg, s, tests[0]);
      StepOutcomeSpec(cfg, s, tests[0]);
      if step.value {
        RunOnlyAppends(cfg, step.state, tests[1..]);
      }
    }
  }

  /** When every test returns true and no assertion fails, the runner
      returns true, the counter grows by the number of tests and the flag is
      unchanged. */
  lemma AllTestsPass(cfg: Config, s: State, tests: seq<TestFunction>)
    requires forall i :: 0 <= i < |tests| ==> tests[i].returnValue && !HasFailure(tests[i].body)
    ensures var r := RunOutcome(cfg, s, tests);
            r.value && r.state.flag == s.flag &&
            r.state.count as int == (s.count as int + |tests|) % COUNTER_MODULUS
  {
    RunOutcomeSpec(cfg, s, tests);
  }

  /** When the k-th test (counting from 0) is the first to return false, the
      runner returns false having invoked exactly k + 1 tests. */
  lemma StopsAtFirstFalseTest(cfg: Config, s: State, tests: seq<TestFunction>, k: nat)
    requires k < |tests| && !TestReturns(cfg.failFast, tests[k])
    requires forall j :: 0 <= j < k ==> TestReturns(cfg.failFast, tests[j])
    ensures var r := RunOutcome(cfg, s, tests);
            !r.value && r.state.count as int == (s.count as int + k + 1) % COUNTER_MODULUS
  {
    RunOutcomeSpec(cfg, s, tests);
  }

  /** Under fail-fast the first false assertion ends the whole run: every
      test invoked before the last one had only true assertions, so no
      assertion is evaluated after the first failing one. */
  lemma FailFastStopsRun(cfg: Config, s: State, tests: seq<TestFunction>)
    requires cfg.failFast
    ensures forall i :: 0 <= i < Invoked(cfg.failFast, tests) - 1 ==> !HasFailure(tests[i].body)
    ensures FailureAmong(tests, Invoked(cfg.failFast, tests)) ==> !RunOutcome(cfg, s, tests).value
  {
    RunOutcomeSpec(cfg, s, tests);
  }

  /** The flag is never reset: once set it stays set through a whole run. */
  lemma FlagMonotonic(cfg: Config, s: State, tests: seq<TestFunction>)
    requires s.flag
    ensures RunOutcome(cfg, s, tests).state.flag
  {
    RunOutcomeSpec(cfg, s, tests);
  }

  /** NO_ERROR_DETECTED after a run from the initial state holds exactly when
      no invoked test has a false assertion, whatever the tests returned. */
  lemma NoErrorDetectedAfterRun(cfg: Config, tests: seq<TestFunction>)
    ensures NoErrorDetected(RunOutcome(cfg, Initial, tests).state) <==>
            !FailureAmong(tests, Invoked(cfg.failFast, tests))
  {
    RunOutcomeSpec(cfg, Initial, tests);
  }

  /** Printing has no effect on control flow: with printing off nothing is
      logged, and the result, counter and flag are those of a run with
      printing on under the same fail-fast setting. */
  lemma PrintingIsTransparent(failFast: bool, s: State, tests: seq<TestFunction>)
    ensures var quiet := RunOutcome(Config(failFast, false), s, tests);
            var loud := RunOutcome(Config(failFast, true), s, tests);
            && quiet.state.log == s.log
            && quiet.value == loud.value
            && quiet.state.count == loud.state.count
            && quiet.state.flag == loud.state.flag
  {
    var quietCfg, loudCfg := Config(failFast, false), Config(failFast, true);
    var quiet, loud := RunOutcome(quietCfg, s, tests), RunOutcome(loudCfg, s, tests);
    assert quiet.state.log == s.log by { RunOnlyAppends(quietCfg, s, tests); }
    assert quiet.value == loud.value by {
      RunResult(quietCfg, s, tests);
      RunResult(loudCfg, s, tests);
    }
    assert quiet.state.count == loud.state.count by {
      RunCount(quietCfg, s, tests);
      RunCount(loudCfg, s, tests);
    }
    assert quiet.state.flag == loud.state.flag by {
      RunFlag(quietCfg, s, tests);
      RunFlag(loudCfg, s, tests);
    }
  }

  // ---------------------------------------------------------------------
  // The globals, updated in place

  /** g_testFunctionCount, g_errorDetected and the output stream, with the
      build-time configuration they are compiled under. */
  class RunContext {
    const cfg: Config
    var testFunctionCount: uint32
    var errorDetected: bool
    var log: seq<string>

    function Snapshot(): State
      reads this
    {
      State(testFunctionCount, errorDetected, log)
    }

    /** The globals' initial values: no test counted, no error, no output. */
    constructor (cfg: Config)
      ensures this.cfg == cfg && Snapshot() == Initial
    {
      this.cfg := cfg;
      testFunctionCount := 0;
      errorDetected := false;
      log := [];
    }

    /** UC_PRINTF_FUNCTION. */
    method Print(text: string)
      modifies this`log
      ensures log == Emit(cfg, old(log), text)
    {
      if cfg.usePrintf {
        log := log + [text];
      }
    }

    /** UC_ASSERT_MSG. `proceed` false stands for the macro's hidden return
        from the enclosing test function. */
    method AssertMsg(message: string, result: bool) returns (proceed: bool)
      modifies this
      ensures testFunctionCount == old(testFunctionCount)
      ensures errorDetected == (old(errorDetected) || !result)
      ensures log == old(log) + AssertionsLog(cfg.usePrintf, [Assertion(message, result)])
      ensures proceed == (result || !cfg.failFast)
      ensures Outcome(Snapshot(), proceed) == AssertOutcome(cfg, old(Snapshot()), Assertion(message, result))
    {
      Print(message);
      if result {
        Print(ASSERT_OK);
        proceed := true;
      } else {
        Print(ASSERT_NOK);
        errorDetected := true;
        proceed := !cfg.failFast;
      }
    }

    /** Calls a test function: its assertion statements in order, then its
        author's return value; a stop requested by AssertMsg returns
        `!errorDetected` at once. */
    method InvokeTest(t: TestFunction) returns (r: bool)
      modifies this
      ensures Outcome(Snapshot(), r) == TestOutcome(cfg, old(Snapshot()), t)
      ensures testFunctionCount == old(testFunctionCount)
      ensures r == TestReturns(cfg.failFast, t)
      ensures errorDetected == (old(errorDetected) || HasFailure(t.body))
    {
      ghost var s0 := Snapshot();
      var i := 0;
      while i < |t.body|
        invariant 0 <= i <= |t.body|
        invariant BodyOutcome(cfg, s0, t.body) == BodyOutcome(cfg, Snapshot(), t.body[i..])
      {
        assert t.body[i..][0] == t.body[i] && t.body[i..][1..] == t.body[i + 1..];
        var proceed := AssertMsg(t.body[i].message, t.body[i].result);
        if !proceed {
          r := !errorDetected;
          TestOutcomeSpec(cfg, s0, t);
          return;
        }
        i := i + 1;
      }
      r := t.returnValue;
      TestOutcomeSpec(cfg, s0, t);
    }

    /** EXECUTE_TEST_CASE. `passed` false stands for the macro's hidden
        `return false;` from the runner. */
    method ExecuteTestCase(t: TestFunction) returns (passed: bool)
      modifies this
      ensures testFunctionCount == Increment(old(testFunctionCount))
      ensures passed == TestReturns(cfg.failFast, t)
      ensures Outcome(Snapshot(), passed) == StepOutcome(cfg, old(Snapshot()), t)
    {
      testFunctionCount := Increment(testFunctionCount);
      passed := InvokeTest(t);
      Print(t.name);
      Print(TestTag(passed));
    }

    /** A runner function made of one EXECUTE_TEST_CASE per registered test,
        in order, then `return true;`. */
    method RunTests(tests: seq<TestFunction>) returns (ok: bool)
      modifies this
      ensures Outcome(Snapshot(), ok) == RunOutcome(cfg, old(Snapshot()), tests)
    {
      ghost var s0 := Snapshot();
      var i := 0;
      while i < |tests|
        invariant 0 <= i <= |tests|
        invariant RunOutcome(cfg, s0, tests) == RunOutcome(cfg, Snapshot(), tests[i..])
      {
        assert tests[i..][0] == tests[i] && tests[i..][1..] == tests[i + 1..];
        var passed := ExecuteTestCase(tests[i]);
        if !passed {
          return false;
        }
        i := i + 1;
      }
      return true;
    }
  }
}
