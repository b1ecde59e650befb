/**
 * The execution engine, `run_tests`: fixtures are taken off the suite one at
 * a time; for each, setup runs, then every test in declared order, then
 * teardown, and exactly one fixture result is appended per fixture.
 *
 * The deferred continuations of the source (`execute`, `next_case`,
 * `next_test`, `case_done`, each re-entered through `process.nextTick`) are
 * the loops of class `Runner`. Every invocable is answered by the outcome its
 * body determines (see `Adapter.Invoke`), and `new Date()` by a clock
 * indexed by how many readings came before, so a run is deterministic.
 * `RunFixture` and `RunAll` describe a run as values; the class is proved to
 * perform exactly that run, and the lemmas state its ordering and counting
 * laws.
 */
module Engine {
  import opened Values
  import opened Adapter
  import opened Suite

  /** The status of a finished test: `'success'`, `'failure'` or `'error'`. */
  datatype TestStatus = Passed | Failure | Error

  /** A test's status together with its reason. */
  datatype Verdict = Verdict(status: TestStatus, reason: Value)

  datatype TestResult = TestResult(name: string, status: TestStatus, reason: Value, start: int, end: int)

  datatype FixtureResult = FixtureResult(name: string, status: FixtureStatus, reason: Value, tests: seq<TestResult>)

  /** One invocation the engine makes, recorded to state ordering laws. */
  datatype Call =
    | SetupCall(fixture: string)
    | TestCall(fixture: string, test: string)
    | TeardownCall(fixture: string)

  /** The per-test classification of the outcome a test's callback receives:
      a truthy `error` or `failure` makes the test fail; it is an `error`
      unless `error` is null or undefined, and its reason is `error || failure`. */
  function Classify(r: Outcome): (v: Verdict)
    ensures v.status == Passed <==> !Truthy(r.error) && !Truthy(r.failure)
    ensures v.status == Passed ==> v.reason == Null
    ensures v.status != Passed ==> Truthy(v.reason)
    ensures Truthy(r.error) ==> v == Verdict(Error, r.error)
    ensures Nullish(r.error) && Truthy(r.failure) ==> v == Verdict(Failure, r.failure)
    ensures !Nullish(r.error) && !Truthy(r.error) && Truthy(r.failure) ==> v == Verdict(Error, r.failure)
  {
    if Truthy(r.error) || Truthy(r.failure) then
      Verdict(if Nullish(r.error) then Failure else Error, Or(r.error, r.failure))
    else
      Verdict(Passed, Null)
  }

  /** What a synchronous test body's throw turns into, end to end: no throw
      passes; an assertion fails with `message || actual` unless both are
      falsy, in which case the test passes; any other fault is an error with
      its string form unless that string is empty, in which case it passes. */
  lemma SyncVerdict(thrown: Option<Fault>)
    ensures thrown.None? ==> Classify(SyncOutcome(thrown)) == Verdict(Passed, Null)
    ensures thrown.Some? && IsAssertion(thrown.value) ==>
              var reason := Or(thrown.value.message, thrown.value.actual);
              Classify(SyncOutcome(thrown)) == if Truthy(reason) then Verdict(Failure, reason) else Verdict(Passed, Null)
    ensures thrown.Some? && !IsAssertion(thrown.value) ==>
              Classify(SyncOutcome(thrown)) ==
                if thrown.value.text != "" then Verdict(Error, Str(thrown.value.text)) else Verdict(Passed, Null)
  {
  }

  /** Setup and teardown fail on the same condition as a test. */
  predicate SlotFailed(r: Outcome) {
    Truthy(r.error) || Truthy(r.failure)
  }

  /** `r.error || r.failure.message`, the reason given a failed setup or teardown. */
  function SlotReason(r: Outcome): Value {
    if Truthy(r.error) then r.error else MessageOf(r.failure)
  }

  predicate SetupFails(f: Fixture) {
    f.setup.Some? && SlotFailed(Invoke(f.setup.value))
  }

  predicate TeardownFails(f: Fixture) {
    f.teardown.Some? && SlotFailed(Invoke(f.teardown.value))
  }

  /** The fixture gets as far as running its tests. */
  predicate TestsRun(f: Fixture) {
    f.status != Ignored && !SetupFails(f)
  }

  /** The status a fixture's result ends with. */
  function FinalStatus(f: Fixture): FixtureStatus {
    if f.status == Ignored then Ignored
    else if SetupFails(f) then SetupFailed
    else if TeardownFails(f) then TeardownFailed
    else Success
  }

  /** One test, started at the `k`-th clock reading and ended at the next. */
  function RunTest(t: TestCase, clock: nat -> int, k: nat): TestResult {
    var v := Classify(Invoke(t.ctor));
    TestResult(t.name, v.status, v.reason, clock(k), clock(k + 1))
  }

  /** The tests of a fixture, one after another, from clock reading `k` on. */
  function RunTestList(tests: seq<TestCase>, clock: nat -> int, k: nat): seq<TestResult>
    decreases |tests|
  {
    if tests == [] then []
    else [RunTest(tests[0], clock, k)] + RunTestList(tests[1..], clock, k + 2)
  }

  function TestCalls(fixture: string, tests: seq<TestCase>): seq<Call>
    decreases |tests|
  {
    if tests == [] then []
    else [TestCall(fixture, tests[0].name)] + TestCalls(fixture, tests[1..])
  }

  /** A fixture's run: its result, the invocations made, and the clock
      readings used up to its end. */
  datatype FixtureRun = FixtureRun(result: FixtureResult, calls: seq<Call>, ticks: nat)

  /** The invocations of a fixture whose tests run: its setup, if any, every
      test in declared order, and its teardown, if any. */
  function RunCalls(f: Fixture): seq<Call> {
    var setupCalls := if f.setup.Some? then [SetupCall(f.name)] else [];
    var teardownCalls := if f.teardown.Some? then [TeardownCall(f.name)] else [];
    setupCalls + TestCalls(f.name, f.tests) + teardownCalls
  }

  /** The invocations a fixture's run makes: none when it is ignored, only
      its setup when setup fails, and otherwise `RunCalls`. */
  function FixtureCalls(f: Fixture): seq<Call> {
    if f.status == Ignored then []
    else if SetupFails(f) then [SetupCall(f.name)]
    else RunCalls(f)
  }

  function RunFixture(f: Fixture, clock: nat -> int, k: nat): FixtureRun {
    if f.status == Ignored then
      FixtureRun(FixtureResult(f.name, Ignored, f.reason, []), FixtureCalls(f), k)
    else if SetupFails(f) then
      FixtureRun(FixtureResult(f.name, SetupFailed, SlotReason(Invoke(f.setup.value)), []), FixtureCalls(f), k)
    else
      var tests := RunTestList(f.tests, clock, k);
      var k' := k + 2 * |f.tests|;
      if TeardownFails(f) then
        FixtureRun(FixtureResult(f.name, TeardownFailed, SlotReason(Invoke(f.teardown.value)), tests), FixtureCalls(f), k')
      else
        FixtureRun(FixtureResult(f.name, Success, Undefined, tests), FixtureCalls(f), k')
  }

  /** A run of a whole suite. */
  datatype SuiteRun = SuiteRun(results: seq<FixtureResult>, calls: seq<Call>, ticks: nat)

  function RunAll(suite: seq<Fixture>, clock: nat -> int, k: nat): SuiteRun
    decreases |suite|
  {
    if suite == [] then SuiteRun([], [], k)
    else
      var first := RunFixture(suite[0], clock, k);
      var rest := RunAll(suite[1..], clock, first.ticks);
      SuiteRun([first.result] + rest.results, first.calls + rest.calls, rest.ticks)
  }

  /** One result per test, in declared order, each classified from that
      test's own outcome and timed by two consecutive clock readings. */
  lemma {:induction false} RunTestListLaws(tests: seq<TestCase>, clock: nat -> int, k: nat)
    ensures |RunTestList(tests, clock, k)| == |tests|
    ensures forall j :: 0 <= j < |tests| ==> RunTestList(tests, clock, k)[j] == RunTest(tests[j], clock, k + 2 * j)
    decreases |tests|
  {
    if tests != [] {
      RunTestListLaws(tests[1..], clock, k + 2);
    }
    forall j | 0 <= j < |tests|
      ensures RunTestList(tests, clock, k)[j] == RunTest(tests[j], clock, k + 2 * j)
    {
      RunTestListAt(tests, clock, k, j);
    }
  }

  /** Result `j` of a test list is test `j` run from reading `k + 2 * j`. */
  lemma {:induction false} RunTestListAt(tests: seq<TestCase>, clock: nat -> int, k: nat, j: nat)
    requires j < |tests|
    ensures j < |RunTestList(tests, clock, k)|
    ensures RunTestList(tests, clock, k)[j] == RunTest(tests[j], clock, k + 2 * j)
    decreases j
  {
    var rest := RunTestList(tests[1..], clock, k + 2);
    assert RunTestList(tests, clock, k) == [RunTest(tests[0], clock, k)] + rest;
    if j == 0 {
      assert k + 2 * j == k;
    } else {
      RunTestListAt(tests[1..], clock, k + 2, j - 1);
      assert RunTestList(tests, clock, k)[j] == rest[j - 1];
      ShiftedTest(tests, clock, k, j);
    }
  }

  /** Test `j` of a list is test `j - 1` of its tail, two readings later. */
  lemma ShiftedTest(tests: seq<TestCase>, clock: nat -> int, k: nat, j: nat)
    requires 0 < j < |tests|
    ensures RunTest(tests[1..][j - 1], clock, k + 2 + 2 * (j - 1)) == RunTest(tests[j], clock, k + 2 * j)
  {
    assert tests[1..][j - 1] == tests[j];
  }

  lemma {:induction false} TestCallsLaws(fixture: string, tests: seq<TestCase>)
    ensures |TestCalls(fixture, tests)| == |tests|
    ensures forall j :: 0 <= j < |tests| ==> TestCalls(fixture, tests)[j] == TestCall(fixture, tests[j].name)
    decreases |tests|
  {
    if tests != [] {
      TestCallsLaws(fixture, tests[1..]);
      var cs := TestCalls(fixture, tests);
      forall j | 0 <= j < |tests|
        ensures cs[j] == TestCall(fixture, tests[j].name)
      {
        if j > 0 {
          assert cs[j] == TestCalls(fixture, tests[1..])[j - 1];
          assert tests[1..][j - 1] == tests[j];
        }
      }
    }
  }

  /** The laws of one fixture's run: an ignored fixture runs nothing and keeps
      its load error; a failed setup stops the fixture before any test and
      teardown, with no test results; otherwise there is one result per
      declared test in declared order, and the fixture ends `success` even
      when tests failed, unless teardown failed. */
  lemma FixtureLaws(f: Fixture, clock: nat -> int, k: nat)
    ensures RunFixture(f, clock, k).result.name == f.name
    ensures RunFixture(f, clock, k).result.status == FinalStatus(f)
    ensures f.status == Ignored ==>
              RunFixture(f, clock, k) == FixtureRun(FixtureResult(f.name, Ignored, f.reason, []), [], k)
    ensures f.status != Ignored && SetupFails(f) ==>
              RunFixture(f, clock, k).result.tests == [] &&
              RunFixture(f, clock, k).result.reason == SlotReason(Invoke(f.setup.value)) &&
              RunFixture(f, clock, k).calls == [SetupCall(f.name)]
    ensures RunFixture(f, clock, k).calls == FixtureCalls(f)
    ensures TestsRun(f) ==>
              RunFixture(f, clock, k).calls == RunCalls(f) &&
              |RunFixture(f, clock, k).result.tests| == |f.tests| &&
              RunFixture(f, clock, k).ticks == k + 2 * |f.tests| &&
              forall j :: 0 <= j < |f.tests| ==>
                RunFixture(f, clock, k).result.tests[j] == RunTest(f.tests[j], clock, k + 2 * j)
  {
    RunTestListLaws(f.tests, clock, k);
  }

  /** The order of invocations when the tests run: setup first if there is
      one, then each test in declared order, then teardown last if there is
      one. */
  lemma InvocationOrder(f: Fixture)
    ensures var calls := RunCalls(f);
            var s := if f.setup.Some? then 1 else 0;
            |calls| == s + |f.tests| + (if f.teardown.Some? then 1 else 0) &&
            (f.setup.Some? ==> calls[0] == SetupCall(f.name)) &&
            (forall j :: 0 <= j < |f.tests| ==> calls[s + j] == TestCall(f.name, f.tests[j].name)) &&
            (f.teardown.Some? ==> calls[|calls| - 1] == TeardownCall(f.name))
  {
    TestCallsLaws(f.name, f.tests);
    var setupCalls := if f.setup.Some? then [SetupCall(f.name)] else [];
    var teardownCalls := if f.teardown.Some? then [TeardownCall(f.name)] else [];
    ConcatIndex(setupCalls, TestCalls(f.name, f.tests), teardownCalls);
  }

  /** Where each part of a three-way concatenation lands. */
  lemma ConcatIndex<T>(s: seq<T>, t: seq<T>, u: seq<T>)
    ensures |s + t + u| == |s| + |t| + |u|
    ensures |s| > 0 ==> (s + t + u)[0] == s[0]
    ensures forall j :: 0 <= j < |t| ==> (s + t + u)[|s| + j] == t[j]
    ensures |u| > 0 ==> (s + t + u)[|s + t + u| - 1] == u[|u| - 1]
  {
  }

  /** Teardown is invoked exactly when the fixture has one and its tests ran. */
  lemma TeardownInvokedIff(f: Fixture)
    ensures TeardownCall(f.name) in FixtureCalls(f) <==> f.teardown.Some? && TestsRun(f)
  {
    TestCallsLaws(f.name, f.tests);
    var calls := FixtureCalls(f);
    if f.teardown.Some? && TestsRun(f) {
      InvocationOrder(f);
      assert calls == RunCalls(f);
    } else if TestsRun(f) {
      var s := if f.setup.Some? then [SetupCall(f.name)] else [];
      assert calls == s + TestCalls(f.name, f.tests) + [];
      assert TeardownCall(f.name) !in TestCalls(f.name, f.tests);
    }
  }

  /** What a fixture result reports about the fixture it was produced for. */
  ghost predicate Reports(r: FixtureResult, f: Fixture) {
    && r.name == f.name
    && r.status == FinalStatus(f)
    && |r.tests| == (if TestsRun(f) then |f.tests| else 0)
    && forall j :: 0 <= j < |r.tests| ==>
         r.tests[j].name == f.tests[j].name &&
         Verdict(r.tests[j].status, r.tests[j].reason) == Classify(Invoke(f.tests[j].ctor))
  }

  /** One fixture result per fixture, in suite order, each reporting its own
      fixture; the run's invocations are those of each fixture in turn. */
  lemma {:induction false} RunAllLaws(suite: seq<Fixture>, clock: nat -> int, k: nat)
    ensures |RunAll(suite, clock, k).results| == |suite|
    ensures forall i :: 0 <= i < |suite| ==> Reports(RunAll(suite, clock, k).results[i], suite[i])
    decreases |suite|
  {
    if suite != [] {
      var first := RunFixture(suite[0], clock, k);
      RunAllLaws(suite[1..], clock, first.ticks);
      FixtureLaws(suite[0], clock, k);
      var rs := RunAll(suite, clock, k).results;
      forall i | 0 <= i < |suite|
        ensures Reports(rs[i], suite[i])
      {
        if i == 0 {
          assert rs[0] == first.result;
        } else {
          assert rs[i] == RunAll(suite[1..], clock, first.ticks).results[i - 1];
          assert suite[1..][i - 1] == suite[i];
        }
      }
    }
  }

  /** Running the first fixture of a suite moves its result and calls from
      what is left to run into what has been gathered. */
  lemma RunAllStep(results: seq<FixtureResult>, calls: seq<Call>, suite: seq<Fixture>, clock: nat -> int, k: nat)
    requires suite != []
    ensures var first := RunFixture(suite[0], clock, k);
            var rest := RunAll(suite[1..], clock, first.ticks);
            && (results + [first.result]) + rest.results == results + RunAll(suite, clock, k).results
            && (calls + first.calls) + rest.calls == calls + RunAll(suite, clock, k).calls
            && rest.ticks == RunAll(suite, clock, k).ticks
  {
    var first := RunFixture(suite[0], clock, k);
    var rest := RunAll(suite[1..], clock, first.ticks);
    var whole := RunAll(suite, clock, k);
    assert whole.results == [first.result] + rest.results;
    assert whole.calls == first.calls + rest.calls;
    SeqAssociative(results, [first.result], rest.results);
    SeqAssociative(calls, first.calls, rest.calls);
  }

  lemma SeqAssociative<T>(a: seq<T>, b: seq<T>, c: seq<T>)
    ensures (a + b) + c == a + (b + c)
  {
  }

  /** Running the first pending test moves its result and its call from what
      is left to run into what has been gathered. */
  lemma TestStep(results: seq<TestResult>, calls: seq<Call>, fixture: string, pending: seq<TestCase>,
                 clock: nat -> int, k: nat)
    requires pending != []
    ensures (results + [RunTest(pending[0], clock, k)]) + RunTestList(pending[1..], clock, k + 2) ==
            results + RunTestList(pending, clock, k)
    ensures (calls + [TestCall(fixture, pending[0].name)]) + TestCalls(fixture, pending[1..]) ==
            calls + TestCalls(fixture, pending)
  {
    SeqAssociative(results, [RunTest(pending[0], clock, k)], RunTestList(pending[1..], clock, k + 2));
    SeqAssociative(calls, [TestCall(fixture, pending[0].name)], TestCalls(fixture, pending[1..]));
  }

  /** A fixture result as `case_done` records it: `running` becomes `success`. */
  function Finished(r: FixtureResult): FixtureResult {
    if r.status == Running then r.(status := Success) else r
  }

  /** The state of one `run_tests` call: the fixtures still queued, the
      results gathered so far, the clock readings taken, and (as a ghost
      record) every invocation made. */
  class Runner {
    var suite: seq<Fixture>
    var caseResults: seq<FixtureResult>
    var ticks: nat
    const clock: nat -> int
    ghost var invoked: seq<Call>

    constructor (suite: seq<Fixture>, clock: nat -> int)
      ensures this.suite == suite && this.clock == clock
      ensures caseResults == [] && ticks == 0 && invoked == []
    {
      this.suite := suite;
      this.clock := clock;
      caseResults := [];
      ticks := 0;
      invoked := [];
    }

    /** `new Date()`: the next clock reading. */
    method Now() returns (t: int)
      modifies this`ticks
      ensures t == clock(old(ticks)) && ticks == old(ticks) + 1
    {
      t := clock(ticks);
      ticks := ticks + 1;
    }

    /** Invokes an invocable and returns the outcome its callback receives. */
    method Run(inv: Invocable, call: Call) returns (r: Outcome)
      modifies this`invoked
      ensures r == Invoke(inv) && invoked == old(invoked) + [call]
    {
      invoked := invoked + [call];
      r := Invoke(inv);
    }

    /** `case_done`: a fixture still `running` becomes `success`; the result
        is appended. */
    method CaseDone(caseResult: FixtureResult)
      modifies this`caseResults
      ensures caseResults == old(caseResults) + [Finished(caseResult)]
    {
      var r := caseResult;
      if r.status == Running {
        r := r.(status := Success);
      }
      caseResults := caseResults + [r];
    }

    /** One test: reads the clock, invokes the test, reads the clock again
        when its callback fires, and classifies the outcome. */
    method RunOne(fixture: string, test: TestCase) returns (result: TestResult)
      modifies this`ticks, this`invoked
      ensures result == RunTest(test, clock, old(ticks))
      ensures invoked == old(invoked) + [TestCall(fixture, test.name)]
      ensures ticks == old(ticks) + 2
    {
      var start := Now();
      var r := Run(test.ctor, TestCall(fixture, test.name));
      var end := Now();
      var v := Classify(r);
      result := TestResult(test.name, v.status, v.reason, start, end);
    }

    /** `next_test`: runs the tests one at a time, in order, appending one
        result per test to the fixture result; a failing test does not stop
        the ones after it. */
    method NextTest(fixture: string, caseResult: FixtureResult, tests: seq<TestCase>) returns (done: FixtureResult)
      modifies this`ticks, this`invoked
      ensures done == caseResult.(tests := caseResult.tests + RunTestList(tests, clock, old(ticks)))
      ensures invoked == old(invoked) + TestCalls(fixture, tests)
      ensures ticks == old(ticks) + 2 * |tests|
    {
      var results := caseResult.tests;
      var pending := tests;
      while pending != []
        invariant results + RunTestList(pending, clock, ticks) ==
                  caseResult.tests + RunTestList(tests, clock, old(ticks))
        invariant invoked + TestCalls(fixture, pending) == old(invoked) + TestCalls(fixture, tests)
        invariant ticks + 2 * |pending| == old(ticks) + 2 * |tests|
        decreases |pending|
      {
        TestStep(results, invoked, fixture, pending, clock, ticks);
        ghost var before := ticks;
        var test := pending[0];
        pending := pending[1..];
        var result := RunOne(fixture, test);
        assert result == RunTest(test, clock, before) && ticks == before + 2;
        results := results + [result];
      }
      done := caseResult.(tests := results);
    }

    /** `next_case`: takes the first queued fixture, runs it unless it is
        ignored, and hands its result to `case_done`. */
    method NextCase()
      requires suite != []
      modifies this
      ensures suite == old(suite)[1..]
      ensures var run := RunFixture(old(suite)[0], clock, old(ticks));
              caseResults == old(caseResults) + [run.result] && invoked == old(invoked) + run.calls && ticks == run.ticks
    {
      var testcase := suite[0];
      suite := suite[1..];
      var caseResult := FixtureResult(testcase.name, Running, Undefined, []);
      if testcase.status == Ignored {
        caseResult := caseResult.(status := Ignored, reason := testcase.reason);
      } else {
        caseResult := RunActive(testcase, caseResult);
      }
      CaseDone(caseResult);
    }

    /** Setup, then (unless it failed) the tests and teardown, of a fixture
        that is not ignored. */
    method RunActive(testcase: Fixture, caseResult: FixtureResult) returns (done: FixtureResult)
      requires testcase.status != Ignored
      requires caseResult == FixtureResult(testcase.name, Running, Undefined, [])
      modifies this`ticks, this`invoked
      ensures var run := RunFixture(testcase, clock, old(ticks));
              Finished(done) == run.result && invoked == old(invoked) + run.calls && ticks == run.ticks
    {
      ghost var run := RunFixture(testcase, clock, ticks);
      ghost var setupCalls := if testcase.setup.Some? then [SetupCall(testcase.name)] else [];
      done := caseResult;
      if testcase.setup.Some? {
        var r := Run(testcase.setup.value, SetupCall(testcase.name));
        if SlotFailed(r) {
          done := done.(status := SetupFailed, reason := SlotReason(r));
          assert run == FixtureRun(done, setupCalls, ticks);
          return;
        }
      }
      assert invoked == old(invoked) + setupCalls;
      ghost var testsRun := RunTestList(testcase.tests, clock, ticks);
      ghost var teardownCalls := if testcase.teardown.Some? then [TeardownCall(testcase.name)] else [];
      ghost var testCalls := TestCalls(testcase.name, testcase.tests);
      assert run.calls == setupCalls + testCalls + teardownCalls;
      assert run.result == FixtureResult(testcase.name, if TeardownFails(testcase) then TeardownFailed else Success,
                                         if TeardownFails(testcase) then SlotReason(Invoke(testcase.teardown.value)) else Undefined,
                                         testsRun);
      done := TestsThenTeardown(testcase, done);
      SeqAssociative(old(invoked), setupCalls, testCalls);
    }

    /** The tests in order, then teardown, once setup has passed. */
    method TestsThenTeardown(testcase: Fixture, caseResult: FixtureResult) returns (done: FixtureResult)
      requires caseResult == FixtureResult(testcase.name, Running, Undefined, [])
      modifies this`ticks, this`invoked
      ensures done.name == testcase.name && done.tests == RunTestList(testcase.tests, clock, old(ticks))
      ensures done.status == (if TeardownFails(testcase) then TeardownFailed else Running)
      ensures done.reason == (if TeardownFails(testcase) then SlotReason(Invoke(testcase.teardown.value)) else Undefined)
      ensures invoked == old(invoked) + TestCalls(testcase.name, testcase.tests) +
                (if testcase.teardown.Some? then [TeardownCall(testcase.name)] else [])
      ensures ticks == old(ticks) + 2 * |testcase.tests|
    {
      done := NextTest(testcase.name, caseResult, testcase.tests);
      if testcase.teardown.Some? {
        var r := Run(testcase.teardown.value, TeardownCall(testcase.name));
        if SlotFailed(r) {
          done := done.(status := TeardownFailed, reason := SlotReason(r));
        }
      }
    }

    /** `execute`: runs fixtures until the queue is empty, then hands the
        gathered results to the callback (here: returns them). */
    method Execute() returns (results: seq<FixtureResult>)
      modifies this
      ensures suite == [] && results == caseResults
      ensures caseResults == old(caseResults) + RunAll(old(suite), clock, old(ticks)).results
      ensures invoked == old(invoked) + RunAll(old(suite), clock, old(ticks)).calls
      ensures ticks == RunAll(old(suite), clock, old(ticks)).ticks
    {
      while suite != []
        invariant caseResults + RunAll(suite, clock, ticks).results ==
                  old(caseResults) + RunAll(old(suite), clock, old(ticks)).results
        invariant invoked + RunAll(suite, clock, ticks).calls ==
                  old(invoked) + RunAll(old(suite), clock, old(ticks)).calls
        invariant RunAll(suite, clock, ticks).ticks == RunAll(old(suite), clock, old(ticks)).ticks
        decreases |suite|
      {
        RunAllStep(caseResults, invoked, suite, clock, ticks);
        NextCase();
      }
      results := caseResults;
    }
  }

  /** `run_tests(suite, callback)`: the list the callback receives is one
      result per fixture, in suite order, each reporting its fixture. */
  method RunTests(suite: seq<Fixture>, clock: nat -> int) returns (results: seq<FixtureResult>)
    ensures results == RunAll(suite, clock, 0).results
    ensures |results| == |suite|
    ensures forall i :: 0 <= i < |suite| ==> Reports(results[i], suite[i])
  {
    var runner := new Runner(suite, clock);
    results := runner.Execute();
    RunAllLaws(suite, clock, 0);
  }
}
