/**
 * The result reporter's arithmetic: `get_fixture_stats` counts one fixture's
 * test results, and the tally loop of `show_result` sums those counts over a
 * run, setting aside fixtures that were ignored or whose setup or teardown
 * failed. The printing itself is not modelled.
 */
module Stats {
  import opened Adapter
  import opened Suite
  import opened Engine

  /** The counters of `get_fixture_stats`. */
  datatype FixtureStats = FixtureStats(tests: nat, failures: nat, errors: nat, time: int)

  /** The number of results with status `s`. */
  function CountStatus(results: seq<TestResult>, s: TestStatus): nat
    decreases |results|
  {
    if results == [] then 0
    else (if results[0].status == s then 1 else 0) + CountStatus(results[1..], s)
  }

  /** The summed `end - start` of the results that are neither failures nor
      errors. */
  function PassedTime(results: seq<TestResult>): int
    decreases |results|
  {
    if results == [] then 0
    else (if results[0].status == Passed then results[0].end - results[0].start else 0) + PassedTime(results[1..])
  }

  /** What `get_fixture_stats` computes for a list of test results. */
  function StatsOf(results: seq<TestResult>): FixtureStats {
    FixtureStats(|results|, CountStatus(results, Failure), CountStatus(results, Error), PassedTime(results))
  }

  /** `get_fixture_stats`: one pass over the fixture's test results. */
  method GetFixtureStats(fixture: FixtureResult) returns (stats: FixtureStats)
    ensures stats == StatsOf(fixture.tests)
  {
    var results := fixture.tests;
    stats := FixtureStats(0, 0, 0, 0);
    for i := 0 to |results|
      invariant stats.tests == i
      invariant stats.failures + CountStatus(results[i..], Failure) == CountStatus(results, Failure)
      invariant stats.errors + CountStatus(results[i..], Error) == CountStatus(results, Error)
      invariant stats.time + PassedTime(results[i..]) == PassedTime(results)
    {
      assert results[i..][1..] == results[i + 1..];
      var test := results[i];
      stats := stats.(tests := stats.tests + 1);
      match test.status
      case Failure =>
        stats := stats.(failures := stats.failures + 1);
      case Error =>
        stats := stats.(errors := stats.errors + 1);
      case Passed =>
        stats := stats.(time := stats.time + (test.end - test.start));
    }
    assert results[|results|..] == [];
  }

  /** Failures and errors are disjoint kinds of test result. */
  lemma {:induction false} StatsBound(results: seq<TestResult>)
    ensures CountStatus(results, Failure) + CountStatus(results, Error) <= |results|
    ensures CountStatus(results, Failure) + CountStatus(results, Error) + CountStatus(results, Passed) == |results|
    decreases |results|
  {
    if results != [] {
      StatsBound(results[1..]);
    }
  }

  /** The counters of `show_result`. */
  datatype Totals = Totals(fixtures: int, ignored: int, tests: int, failures: int, errors: int, time: int)

  function Add(a: Totals, b: Totals): Totals {
    Totals(a.fixtures + b.fixtures, a.ignored + b.ignored, a.tests + b.tests,
           a.failures + b.failures, a.errors + b.errors, a.time + b.time)
  }

  const NoTotals := Totals(0, 0, 0, 0, 0, 0)

  /** A fixture result that counts as an ignored fixture in the summary. */
  predicate SetAside(r: FixtureResult) {
    r.status == SetupFailed || r.status == TeardownFailed || r.status == Ignored
  }

  /** What one fixture result adds to the totals. */
  function Contribution(r: FixtureResult): Totals {
    if SetAside(r) then Totals(1, 1, 0, 0, 0, 0)
    else
      var s := StatsOf(r.tests);
      Totals(1, 0, s.tests, s.failures, s.errors, s.time)
  }

  function TotalsOf(results: seq<FixtureResult>): Totals
    decreases |results|
  {
    if results == [] then NoTotals
    else Add(Contribution(results[0]), TotalsOf(results[1..]))
  }

  /** The `forEach` callback of `show_result`: the switch on one fixture
      result's status. A set-aside result counts as one ignored fixture; any
      other adds its `get_fixture_stats`. `total_fixtures` is left alone. */
  method CountFixture(counted: Totals, fixture: FixtureResult) returns (next: Totals)
    ensures next == Add(counted, Contribution(fixture)).(fixtures := counted.fixtures)
  {
    next := counted;
    match fixture.status {
      case SetupFailed | TeardownFailed | Ignored =>
        next := next.(ignored := next.ignored + 1);
      case _ =>
        var stats := GetFixtureStats(fixture);
        next := next.(tests := next.tests + stats.tests,
                      failures := next.failures + stats.failures,
                      errors := next.errors + stats.errors,
                      time := next.time + stats.time);
    }
  }

  /** The tally loop of `show_result`: `total_fixtures` is the number of
      results, and the other counters are what the callback leaves after
      visiting every result in order. */
  method ShowResult(result: seq<FixtureResult>) returns (totals: Totals)
    ensures totals == TotalsOf(result)
  {
    totals := Totals(|result|, 0, 0, 0, 0, 0);
    for i := 0 to |result|
      invariant totals.fixtures == |result|
      invariant Add(totals.(fixtures := i), TotalsOf(result[i..])) == TotalsOf(result)
    {
      TallyStep(result, i, totals.(fixtures := i));
      totals := CountFixture(totals, result[i]);
    }
    TallyDone(result, totals);
  }

  /** Once every result has been visited, the running counters are the
      totals of the whole run. */
  lemma TallyDone(results: seq<FixtureResult>, counted: Totals)
    requires Add(counted, TotalsOf(results[|results|..])) == TotalsOf(results)
    ensures counted == TotalsOf(results)
  {
    assert results[|results|..] == [];
  }

  /** Tallying one more fixture result moves its contribution from what is
      left to what has been counted. */
  lemma TallyStep(results: seq<FixtureResult>, i: nat, counted: Totals)
    requires i < |results|
    ensures Add(counted, TotalsOf(results[i..])) ==
            Add(Add(counted, Contribution(results[i])), TotalsOf(results[i + 1..]))
  {
    assert results[i..][1..] == results[i + 1..];
    AddAssociative(counted, Contribution(results[i]), TotalsOf(results[i + 1..]));
  }

  /** The number of fixture results set aside. */
  function CountSetAside(results: seq<FixtureResult>): nat
    decreases |results|
  {
    if results == [] then 0
    else (if SetAside(results[0]) then 1 else 0) + CountSetAside(results[1..])
  }

  /** Every fixture result is counted once; the ignored count is the number
      of results set aside; failures and errors never exceed tests. */
  lemma {:induction false} TotalsLaws(results: seq<FixtureResult>)
    ensures TotalsOf(results).fixtures == |results|
    ensures TotalsOf(results).ignored == CountSetAside(results) <= |results|
    ensures TotalsOf(results).failures + TotalsOf(results).errors <= TotalsOf(results).tests
    decreases |results|
  {
    if results != [] {
      TotalsLaws(results[1..]);
      StatsBound(results[0].tests);
    }
  }

  lemma AddAssociative(x: Totals, y: Totals, z: Totals)
    ensures Add(Add(x, y), z) == Add(x, Add(y, z))
  {
  }

  lemma AddSwap(x: Totals, y: Totals, z: Totals)
    ensures Add(Add(x, y), z) == Add(Add(x, z), y)
  {
  }

  /** The totals of a run are the sum of the totals of its parts. */
  lemma {:induction false} TotalsAppend(a: seq<FixtureResult>, b: seq<FixtureResult>)
    ensures TotalsOf(a + b) == Add(TotalsOf(a), TotalsOf(b))
    decreases |a|
  {
    if a == [] {
      assert a + b == b;
      assert TotalsOf(a) == NoTotals;
    } else {
      var c := Contribution(a[0]);
      assert (a + b)[0] == a[0];
      assert (a + b)[1..] == a[1..] + b;
      calc {
        TotalsOf(a + b);
        Add(c, TotalsOf(a[1..] + b));
        { TotalsAppend(a[1..], b); }
        Add(c, Add(TotalsOf(a[1..]), TotalsOf(b)));
        { AddAssociative(c, TotalsOf(a[1..]), TotalsOf(b)); }
        Add(Add(c, TotalsOf(a[1..])), TotalsOf(b));
        Add(TotalsOf(a), TotalsOf(b));
      }
    }
  }

  /** A fixture that was ignored or whose setup or teardown failed adds one
      fixture and one ignored fixture, and nothing to tests, failures,
      errors or time, wherever it stands in the run. */
  lemma SetAsideAddsNothing(a: seq<FixtureResult>, r: FixtureResult, b: seq<FixtureResult>)
    requires SetAside(r)
    ensures TotalsOf(a + [r] + b) == Add(TotalsOf(a + b), Totals(1, 1, 0, 0, 0, 0))
  {
    var one := Totals(1, 1, 0, 0, 0, 0);
    assert TotalsOf([r]) == one by {
      assert [r][1..] == [];
    }
    calc {
      TotalsOf(a + [r] + b);
      { TotalsAppend(a + [r], b); }
      Add(TotalsOf(a + [r]), TotalsOf(b));
      { TotalsAppend(a, [r]); }
      Add(Add(TotalsOf(a), one), TotalsOf(b));
      { AddSwap(TotalsOf(a), one, TotalsOf(b)); }
      Add(Add(TotalsOf(a), TotalsOf(b)), one);
      { TotalsAppend(a, b); }
      Add(TotalsOf(a + b), one);
    }
  }

  /** The number of tests among `tests` whose outcome classifies as `s`. */
  function CountVerdicts(tests: seq<TestCase>, s: TestStatus): nat
    decreases |tests|
  {
    if tests == [] then 0
    else (if Classify(Invoke(tests[0].ctor)).status == s then 1 else 0) + CountVerdicts(tests[1..], s)
  }

  /** What one fixture should add to the totals, computed from the fixture
      alone (time, which depends on the clock, is left at zero). */
  function ExpectedContribution(f: Fixture): Totals {
    if FinalStatus(f) == Success
    then Totals(1, 0, |f.tests|, CountVerdicts(f.tests, Failure), CountVerdicts(f.tests, Error), 0)
    else Totals(1, 1, 0, 0, 0, 0)
  }

  /** The totals a suite should produce, computed from the fixtures alone. */
  function ExpectedTotals(suite: seq<Fixture>): Totals
    decreases |suite|
  {
    if suite == [] then NoTotals
    else Add(ExpectedContribution(suite[0]), ExpectedTotals(suite[1..]))
  }

  /** Two totals agree on every counter except time. */
  predicate SameCounts(a: Totals, b: Totals) {
    a.fixtures == b.fixtures && a.ignored == b.ignored && a.tests == b.tests &&
    a.failures == b.failures && a.errors == b.errors
  }

  lemma {:induction false} CountRunStatus(tests: seq<TestCase>, clock: nat -> int, k: nat, s: TestStatus)
    ensures CountStatus(RunTestList(tests, clock, k), s) == CountVerdicts(tests, s)
    decreases |tests|
  {
    if tests != [] {
      CountRunStatus(tests[1..], clock, k + 2, s);
      assert RunTestList(tests, clock, k)[1..] == RunTestList(tests[1..], clock, k + 2);
    }
  }

  /** What a fixture's run adds to the totals is what its fixture should add:
      one ignored fixture when it was ignored or its setup or teardown
      failed, and otherwise its tests with their failures and errors as
      their bodies determine, and the time of its passed tests as the
      clock readings around them give it. */
  lemma FixtureTotals(f: Fixture, clock: nat -> int, k: nat)
    ensures SameCounts(Contribution(RunFixture(f, clock, k).result), ExpectedContribution(f))
    ensures Contribution(RunFixture(f, clock, k).result).time ==
            if FinalStatus(f) == Success then PassedTime(RunTestList(f.tests, clock, k)) else 0
  {
    FixtureLaws(f, clock, k);
    if FinalStatus(f) == Success {
      var tests := RunFixture(f, clock, k).result.tests;
      assert tests == RunTestList(f.tests, clock, k);
      CountRunStatus(f.tests, clock, k, Failure);
      CountRunStatus(f.tests, clock, k, Error);
    }
  }

  /** End to end: the summary of a run counts every fixture, counts as
      ignored exactly the fixtures that were ignored or whose setup or
      teardown failed, and counts the tests, failures and errors of the
      other fixtures as their bodies determine. */
  lemma {:induction false} RunTotals(suite: seq<Fixture>, clock: nat -> int, k: nat)
    ensures SameCounts(TotalsOf(RunAll(suite, clock, k).results), ExpectedTotals(suite))
    decreases |suite|
  {
    if suite != [] {
      var first := RunFixture(suite[0], clock, k);
      var rest := RunAll(suite[1..], clock, first.ticks);
      var rs := RunAll(suite, clock, k).results;
      RunTotals(suite[1..], clock, first.ticks);
      FixtureTotals(suite[0], clock, k);
      assert rs == [first.result] + rest.results;
      assert rs[0] == first.result && rs[1..] == rest.results;
      assert TotalsOf(rs) == Add(Contribution(first.result), TotalsOf(rest.results));
      assert ExpectedTotals(suite) == Add(ExpectedContribution(suite[0]), ExpectedTotals(suite[1..]));
      SameCountsAdd(Contribution(first.result), ExpectedContribution(suite[0]),
                    TotalsOf(rest.results), ExpectedTotals(suite[1..]));
    }
  }

  lemma SameCountsAdd(a: Totals, b: Totals, c: Totals, d: Totals)
    requires SameCounts(a, b) && SameCounts(c, d)
    ensures SameCounts(Add(a, c), Add(b, d))
  {
  }
}
