# testbot — a verified model of the runner core

testbot is a small test runner for node.js. A module descriptor names a
test module; the runner loads each module, collects the exports whose
names follow the pattern `^(at|t)est_([A-Za-z0-9_]*)$` into a
*fixture* (an optional `setup`, an optional `teardown` and a list of tests),
runs the fixtures one after another, and prints per-fixture and overall
counts of tests, failures, errors and elapsed time.

This project models that core in Dafny:

- `values.dfy` (`Values`): the JavaScript values the runner inspects, with
  ToBoolean (`if (v)`, `a || b`), loose equality with `null`, and reading
  `.message`.
- `adapter.dfy` (`Adapter`): `create_async_constructor`. Its synchronous
  path (a `try`/`catch` around the call) is a function of what the call
  throws. An asynchronous invocable is represented by the outcome its
  adapter ends with.
- `suite.dfy` (`Suite`): `build_test_suite`. `FixtureOf` describes the
  fixture built for one module, and the methods `BuildFixture` (the `for-in`
  scan over the exports) and `BuildTestSuite` are proved to build it.
- `engine.dfy` (`Engine`): `run_tests`. The chain of `process.nextTick`
  continuations (`execute`, `next_case`, `next_test`, `case_done`) becomes
  the loops of class `Runner`, which drains the fixture queue and appends one
  fixture result per fixture. `RunFixture` and `RunAll` describe a run as
  values. The class is proved to perform exactly that run, and lemmas state
  the run's ordering, status and counting laws.
- `stats.dfy` (`Stats`): `get_fixture_stats` and the tally loop of
  `show_result`, each a loop proved against a counting function, plus the
  end-to-end law connecting the fixtures of a suite to the printed totals.

Inputs the runner takes from its environment are parameters:

- `require(path)` is a function from a path to `Loaded` (the module's
  exports in enumeration order, or the value it threw).
- `new Date()` is a function `clock` from the number of earlier readings to
  a timestamp in milliseconds.
- A test body is a `Body`: what it throws when called synchronously, and
  the outcome the asynchronous adapter ends with.

## Model

| member | source | states |
|---|---|---|
| Values.Or | testbot.js:334 | JavaScript `a \|\| b` is `a` when `a` is truthy and `b` otherwise, so it is truthy exactly when either operand is |
| Adapter.SyncOutcome | testbot.js:330-337 | no throw leaves `failure` and `error` null; an `AssertionError` sets only `failure`, to `message` when truthy and `actual` otherwise; any other throw sets only `error`, to its string form; never are both set |
| Engine.SyncVerdict | testbot.js:330-337 | end to end for a synchronous body: no throw passes; an assertion fails with `message \|\| actual` unless both are falsy; another throw is an error with its string form unless that string is empty |
| Suite.MatchTestName | testbot.js:20 | a match means the name is `atest_` (async) or `test_` (sync) followed by an identifier of `[A-Za-z0-9_]*`, and the captures are that flag and that identifier |
| Suite.MatchTestNameComplete | testbot.js:20 | every such prefix followed by an identifier matches, with exactly those captures |
| Suite.LastSlot | testbot.js:110-122 | a setup or teardown slot is empty exactly when no export defines it |
| Suite.LastSlotIsLastDefinition | testbot.js:110-122 | the slot holds the invocable wrapped from the last export that defines it: a later definition overwrites an earlier one |
| Suite.LastSlotAppend | testbot.js:110-122 | a slot defined in a later part of the exports wins over the earlier part |
| Suite.DeclaredTestsAppend | testbot.js:124-130 | tests are appended in enumeration order, across any split of the exports |
| Suite.DeclaredTestNames | testbot.js:124-130 | there are at most as many tests as exports, and every test name is an identifier other than `setup` and `teardown` |
| Suite.SlotUnaffected | testbot.js:103-104 | an export whose name does not match never fills a slot, wherever it stands |
| Suite.NonMatchingExportIgnored | testbot.js:102-104 | an export whose name does not match changes nothing in the fixture, wherever it stands |
| Suite.MatchingExportAddsItsTest | testbot.js:102-130 | a matching export named other than `setup` or `teardown` adds exactly one test, with its identifier as name and its wrapped value as constructor, at its own position among the tests |
| Suite.BuildFixture | testbot.js:81-134 | the `for-in` scan builds `FixtureOf`: for a load failure an `ignored` fixture with the thrown value as reason and no tests; otherwise a `waiting` fixture with the last setup, the last teardown and the tests in order |
| Suite.BuildTestSuite | testbot.js:80-136 | one fixture per module descriptor, in order, each built from what loading its path did |
| Engine.Classify | testbot.js:206-212 | a test passes exactly when neither `error` nor `failure` is truthy; a failed test has a truthy reason; a truthy `error` gives `error` with that reason; a null `error` gives `failure` with the failure as reason; a falsy but non-null `error` gives `error` with the failure as reason |
| Engine.RunTestListLaws | testbot.js:190-228 | one result per test, in declared order, each classified from that test's own outcome and timed by two consecutive clock readings |
| Engine.TestCallsLaws | testbot.js:190-203 | the tests are invoked one each, in declared order |
| Engine.FixtureLaws | testbot.js:158-268 | an ignored fixture runs nothing and keeps its load error; a failed setup stops the fixture before any test and before teardown, with no test results; otherwise the calls are setup, tests and teardown (`RunCalls`), there is one result per declared test in declared order, and the status is `teardown-failed` or else `success`, even when tests failed |
| Engine.InvocationOrder | testbot.js:190-268 | the calls of a fixture whose tests run (`RunCalls`): setup first if there is one, then every test in declared order, then teardown last if there is one, and nothing else |
| Engine.TeardownInvokedIff | testbot.js:231-246 | teardown is invoked exactly when the fixture has one and neither ignoring nor setup failure stopped it |
| Engine.TestStep | testbot.js:190-228 | running the first pending test moves its result and its call from what is left to run into what has been gathered, leaving the whole unchanged |
| Engine.RunAllStep | testbot.js:146-155 | running the first queued fixture moves its result and its calls from what is left to run into what has been gathered, leaving the whole and the final clock count unchanged |
| Engine.RunAllLaws | testbot.js:146-187 | one fixture result per fixture, in suite order, each reporting its fixture's name, final status and per-test verdicts |
| Engine.Runner.constructor | testbot.js:141-142 | a run starts with the whole suite queued and no results |
| Engine.Runner.Now | testbot.js:198 | a clock reading takes the next timestamp |
| Engine.Runner.Run | testbot.js:203 | invoking an invocable yields the outcome its body determines and records the invocation |
| Engine.Runner.CaseDone | testbot.js:168-179 | a fixture result still `running` is appended as `success`, any other as it is |
| Engine.Runner.RunOne | testbot.js:190-228 | one test: clock reading, invocation, clock reading, classification |
| Engine.Runner.NextTest | testbot.js:190-229 | the tests run to the end of the list whatever their outcomes, each result appended in order |
| Engine.Runner.TestsThenTeardown | testbot.js:230-247 | teardown follows the last test; a failed teardown makes the fixture `teardown-failed` with reason `error \|\| failure.message` and keeps the test results |
| Engine.Runner.RunActive | testbot.js:252-268 | a failed setup makes the fixture `setup-failed` with reason `error \|\| failure.message` and runs nothing more; otherwise the tests and teardown follow |
| Engine.Runner.NextCase | testbot.js:158-187 | the first queued fixture is removed and exactly its run is appended; an ignored fixture is appended as `ignored` with its load error and invokes nothing |
| Engine.Runner.Execute | testbot.js:146-155 | fixtures run until the queue is empty, and only then are the gathered results handed over: exactly the run of the whole suite |
| Engine.RunTests | testbot.js:141-273 | the callback receives one result per fixture, in suite order, each reporting its fixture |
| Stats.GetFixtureStats | testbot.js:404-428 | `tests` is the number of results, `failures` and `errors` count those statuses, and `time` sums `end - start` over the results that are neither |
| Stats.StatsBound | testbot.js:411-426 | failures and errors are disjoint: together with passes they make up all results, so `failures + errors <= tests` |
| Stats.CountFixture | testbot.js:380-396 | the `forEach` callback: a `setup-failed`, `teardown-failed` or `ignored` result adds one ignored fixture, any other adds its `get_fixture_stats`; the fixture count is left alone |
| Stats.ShowResult | testbot.js:372-396 | the tally loop, one `CountFixture` per result on top of `total_fixtures = result.length`, computes `TotalsOf` of the fixture results |
| Stats.TallyStep | testbot.js:380-396 | each fixture result moves its contribution from what is left into the running totals |
| Stats.TotalsLaws | testbot.js:372-396 | every fixture result counts as a fixture; the ignored count is the number of `setup-failed`, `teardown-failed` and `ignored` results; failures plus errors never exceed tests |
| Stats.TotalsAppend | testbot.js:380-396 | the totals of a run are the sum of the totals of its parts |
| Stats.SetAsideAddsNothing | testbot.js:381-386 | a `setup-failed`, `teardown-failed` or `ignored` fixture adds one fixture and one ignored fixture and nothing to tests, failures, errors or time, wherever it stands |
| Stats.CountRunStatus | testbot.js:206-212 | the results of a fixture's tests carry a status exactly as often as the tests' outcomes classify to it |
| Stats.FixtureTotals | testbot.js:380-396 | one fixture's run adds one fixture; one ignored fixture when it was ignored or its setup or teardown failed; otherwise its tests, failures and errors as its test bodies determine, and the time of its passed tests from the clock readings around them; a set-aside fixture adds no time |
| Stats.RunTotals | testbot.js:372-396 | end to end: the totals of a run count every fixture, count as ignored exactly the fixtures that were ignored or whose setup or teardown failed, and count the tests, failures and errors of the other fixtures as their bodies determine |

## Left out

- The asynchronous adapter (testbot.js:283-325): the promise, its timeout, the `uncaughtException` listener and the completion callback are event-loop and timer behaviour. An asynchronous invocable is represented only by the outcome it ends with (`Body.whenAwaited`). This includes the `'Timeout'` failure and the handler at testbot.js:298, which reads the out-of-scope `syncerr` and would itself throw.
- `process.nextTick` deferral: the continuations run in sequence as loop iterations. The adapter's deferred callback is taken to fire exactly once.
- The clock: timestamps are integers of milliseconds from `clock`. `Date` objects, their subtraction, and `time / 1000` as a float are not modelled.
- Console output: `sys.puts` in `next_test`, `next_case`, `show_fixture_result` and `show_result` is not modelled.
- Module discovery and command-line handling: `main`, `file_source`, `directory_source` and `RE_FILE_NAME` touch the filesystem and the process.
- `require`: the module loader is a parameter. Its enumeration order (own and inherited enumerable properties, as `for-in` visits them) is the order of the `exports` sequence.
- Export values: any exported value whose name matches is wrapped, as in the code. Calling a non-function is not modelled. A body is described by what it throws or ends with.
- Thrown values: a thrown value is a `Fault` with a name, `message`, `actual` and string form. A thrown `null` or `undefined`, on which `syncerr.name` itself throws, is not modelled.
- `Value`: JavaScript numbers are integers here. `NaN`, `-0` and other floats are not modelled. Objects carry only the `message` property the runner reads.
- In-place draining of a fixture's `tests` array: `next_test` shifts the fixture's own array, so afterwards a fixture whose tests ran is left with an empty list, while an ignored fixture or one whose setup failed keeps its list (`next_test` is never reached, testbot.js:181-186, testbot.js:252-259). `Runner.NextTest` pops a local copy, and the queued fixtures are values, so that side effect on the caller's objects is not captured.
- The `timeout` field of a fixture is set to 4000 and never read by the engine, so it plays no part in any law.
- Stats.RunTotals: does not state the time total, because it depends on the clock readings. `Stats.ShowResult` and `Stats.GetFixtureStats` state the time exactly.

## Notes on the code

- Any export whose name matches is wrapped, function or not (testbot.js:102-108).
- Only the prefixes `t` and `at` match; `est_` alone does not (testbot.js:20).
- A fixture result ends `ignored`, `setup-failed`, `teardown-failed` or `success`, and no other status; a fixture whose tests failed ends `success` (testbot.js:170-172).
- A `teardown-failed` fixture keeps its test results but counts as ignored in the summary, contributing no tests, failures, errors or time (testbot.js:382-386). `Stats.SetAsideAddsNothing` states this.
- The reason of a failed setup or teardown is `r.error || r.failure.message` (testbot.js:237, testbot.js:258). When only a string `failure` is set, that reason is `undefined`. `Engine.SlotReason` models this with `Values.MessageOf`.
