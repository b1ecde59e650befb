/**
 * The suite builder, `build_test_suite`: one fixture per module descriptor.
 * A module that fails to load becomes an `ignored` fixture; otherwise every
 * exported name matching `^(at|t)est_([A-Za-z0-9_]*)$` is classified as the
 * fixture's setup, its teardown, or one more test, in enumeration order.
 *
 * The builder itself is the pair of methods at the end; `FixtureOf` is the
 * declarative description they are proved against.
 */
module Suite {
  import opened Values
  import opened Adapter

  /** The states a fixture or a fixture result can be in. */
  datatype FixtureStatus = Waiting | Ignored | Running | Success | SetupFailed | TeardownFailed

  datatype TestCase = TestCase(name: string, ctor: Invocable)

  datatype Fixture = Fixture(
    name: string,
    status: FixtureStatus,
    timeout: nat,
    reason: Value,
    setup: Option<Invocable>,
    teardown: Option<Invocable>,
    tests: seq<TestCase>)

  /** A module descriptor, `{ path, name }`. */
  datatype ModuleInfo = ModuleInfo(path: string, name: string)

  /** One exported member, in the order `for (var prop in module)` visits it. */
  datatype Export = Export(prop: string, fn: Body)

  /** What `require(path)` does: returns the module's exports, or throws. */
  datatype Loaded = Loaded(exports: seq<Export>) | LoadFailed(err: Value)

  /** The two groups a successful match of the test-name pattern captures:
      whether the prefix was `at`, and the identifier after `est_`. */
  datatype NameMatch = NameMatch(async: bool, name: string)

  /** `[A-Za-z0-9_]` */
  predicate IdentChar(c: char) {
    ('A' <= c <= 'Z') || ('a' <= c <= 'z') || ('0' <= c <= '9') || c == '_'
  }

  /** `[A-Za-z0-9_]*`, anchored at both ends. */
  predicate IdentName(s: string) {
    forall i :: 0 <= i < |s| ==> IdentChar(s[i])
  }

  /** The literal text before the identifier: `atest_` or `test_`. */
  function Prefix(async: bool): string {
    if async then "atest_" else "test_"
  }

  /** `prop.match(RE_TEST_NAME)`. */
  function MatchTestName(prop: string): (m: Option<NameMatch>)
    ensures m.Some? ==> prop == Prefix(m.value.async) + m.value.name && IdentName(m.value.name)
  {
    if |prop| >= 6 && prop[..6] == "atest_" && IdentName(prop[6..]) then
      Some(NameMatch(true, prop[6..]))
    else if |prop| >= 5 && prop[..5] == "test_" && IdentName(prop[5..]) then
      Some(NameMatch(false, prop[5..]))
    else
      None
  }

  /** The other half of the pattern's meaning: every prefix followed by an
      identifier matches, with exactly those captures. */
  lemma MatchTestNameComplete(async: bool, name: string)
    requires IdentName(name)
    ensures MatchTestName(Prefix(async) + name) == Some(NameMatch(async, name))
  {
    var prop := Prefix(async) + name;
    if async {
      assert prop[..6] == "atest_";
      assert prop[6..] == name;
    } else {
      assert prop[0] == 't';
      assert prop[..5] == "test_";
      assert prop[5..] == name;
    }
  }

  /** The invocable an export stands for once its name has matched. */
  function Wrapped(e: Export): Invocable
    requires MatchTestName(e.prop).Some?
  {
    Invocable(MatchTestName(e.prop).value.async, DEFAULT_TIMEOUT, e.fn)
  }

  /** The export fills the reserved slot `slot` (`setup` or `teardown`). */
  predicate DefinesSlot(e: Export, slot: string) {
    MatchTestName(e.prop).Some? && MatchTestName(e.prop).value.name == slot
  }

  /** The test an export declares: none, or one test named by its identifier. */
  function TestsOf(e: Export): seq<TestCase> {
    match MatchTestName(e.prop)
    case None => []
    case Some(m) =>
      if m.name == "setup" || m.name == "teardown" then []
      else [TestCase(m.name, Invocable(m.async, DEFAULT_TIMEOUT, e.fn))]
  }

  /** The declared tests of a module, in enumeration order. */
  function DeclaredTests(exports: seq<Export>): seq<TestCase> {
    if exports == [] then []
    else DeclaredTests(exports[..|exports| - 1]) + TestsOf(exports[|exports| - 1])
  }

  /** The invocable the last export defining `slot` stands for: a later
      definition replaces an earlier one. */
  function LastSlot(exports: seq<Export>, slot: string): (r: Option<Invocable>)
    ensures r.None? <==> forall j :: 0 <= j < |exports| ==> !DefinesSlot(exports[j], slot)
  {
    if exports == [] then None
    else if DefinesSlot(exports[|exports| - 1], slot) then Some(Wrapped(exports[|exports| - 1]))
    else
      var init := exports[..|exports| - 1];
      assert forall j :: 0 <= j < |init| ==> init[j] == exports[j];
      LastSlot(init, slot)
  }

  /** The fixture built for one module descriptor, given what loading it did. */
  function FixtureOf(info: ModuleInfo, loaded: Loaded): Fixture {
    match loaded
    case LoadFailed(err) =>
      Fixture(info.name, Ignored, DEFAULT_TIMEOUT, err, None, None, [])
    case Loaded(exports) =>
      Fixture(info.name, Waiting, DEFAULT_TIMEOUT, Null,
              LastSlot(exports, "setup"), LastSlot(exports, "teardown"), DeclaredTests(exports))
  }

  /** Declared tests keep the enumeration order across any split. */
  lemma {:induction false} DeclaredTestsAppend(a: seq<Export>, b: seq<Export>)
    ensures DeclaredTests(a + b) == DeclaredTests(a) + DeclaredTests(b)
    decreases |b|
  {
    if b == [] {
      assert a + b == a;
    } else {
      var b' := b[..|b| - 1];
      assert (a + b)[..|a + b| - 1] == a + b';
      assert (a + b)[|a + b| - 1] == b[|b| - 1];
      DeclaredTestsAppend(a, b');
    }
  }

  /** A slot defined in the later part of the exports wins. */
  lemma {:induction false} LastSlotAppend(a: seq<Export>, b: seq<Export>, slot: string)
    ensures LastSlot(a + b, slot) == if LastSlot(b, slot).Some? then LastSlot(b, slot) else LastSlot(a, slot)
    decreases |b|
  {
    if b == [] {
      assert a + b == a;
    } else {
      var b' := b[..|b| - 1];
      assert (a + b)[..|a + b| - 1] == a + b';
      assert (a + b)[|a + b| - 1] == b[|b| - 1];
      LastSlotAppend(a, b', slot);
    }
  }

  /** The slot holds the wrapping of the last export that defines it. */
  lemma {:induction false} LastSlotIsLastDefinition(exports: seq<Export>, slot: string, i: nat)
    requires i < |exports| && DefinesSlot(exports[i], slot)
    requires forall j :: i < j < |exports| ==> !DefinesSlot(exports[j], slot)
    ensures LastSlot(exports, slot) == Some(Wrapped(exports[i]))
    decreases |exports|
  {
    if i < |exports| - 1 {
      var init := exports[..|exports| - 1];
      assert init[i] == exports[i];
      LastSlotIsLastDefinition(init, slot, i);
    }
  }

  /** Every declared test carries an identifier that is neither reserved name. */
  lemma {:induction false} DeclaredTestNames(exports: seq<Export>)
    ensures |DeclaredTests(exports)| <= |exports|
    ensures forall t :: t in DeclaredTests(exports) ==>
              IdentName(t.name) && t.name != "setup" && t.name != "teardown"
    decreases |exports|
  {
    if exports != [] {
      DeclaredTestNames(exports[..|exports| - 1]);
    }
  }

  /** An export whose name does not match the pattern changes nothing,
      wherever it stands. */
  lemma NonMatchingExportIgnored(info: ModuleInfo, a: seq<Export>, e: Export, b: seq<Export>)
    requires MatchTestName(e.prop).None?
    ensures FixtureOf(info, Loaded(a + [e] + b)) == FixtureOf(info, Loaded(a + b))
  {
    assert DeclaredTests([e]) == [] by {
      assert [e][..0] == [];
    }
    calc {
      DeclaredTests(a + [e] + b);
      { DeclaredTestsAppend(a + [e], b); }
      DeclaredTests(a + [e]) + DeclaredTests(b);
      { DeclaredTestsAppend(a, [e]); }
      DeclaredTests(a) + DeclaredTests(b);
      { DeclaredTestsAppend(a, b); }
      DeclaredTests(a + b);
    }
    SlotUnaffected(a, e, b, "setup");
    SlotUnaffected(a, e, b, "teardown");
  }

  /** A matching export named other than `setup` or `teardown` adds exactly
      one test, wrapped from that export, at its own position. */
  lemma MatchingExportAddsItsTest(a: seq<Export>, e: Export, b: seq<Export>)
    requires MatchTestName(e.prop).Some?
    requires MatchTestName(e.prop).value.name != "setup" && MatchTestName(e.prop).value.name != "teardown"
    ensures DeclaredTests(a + [e] + b) ==
            DeclaredTests(a) + [TestCase(MatchTestName(e.prop).value.name, Wrapped(e))] + DeclaredTests(b)
  {
    assert DeclaredTests([e]) == [TestCase(MatchTestName(e.prop).value.name, Wrapped(e))] by {
      assert [e][..0] == [];
    }
    DeclaredTestsAppend(a + [e], b);
    DeclaredTestsAppend(a, [e]);
  }

  /** An export whose name does not match the pattern never fills a slot. */
  lemma SlotUnaffected(a: seq<Export>, e: Export, b: seq<Export>, slot: string)
    requires MatchTestName(e.prop).None?
    ensures LastSlot(a + [e] + b, slot) == LastSlot(a + b, slot)
  {
    assert !DefinesSlot(e, slot);
    assert LastSlot([e], slot) == None;
    LastSlotAppend(a + [e], b, slot);
    LastSlotAppend(a, [e], slot);
    LastSlotAppend(a, b, slot);
  }

  /** Builds one fixture: load failures are ignored fixtures, otherwise the
      `for-in` loop over the exports fills the setup, teardown and tests. */
  method BuildFixture(info: ModuleInfo, loaded: Loaded) returns (fixture: Fixture)
    ensures fixture == FixtureOf(info, loaded)
  {
    fixture := Fixture(info.name, Waiting, DEFAULT_TIMEOUT, Null, None, None, []);
    if loaded.LoadFailed? {
      fixture := fixture.(status := Ignored, reason := loaded.err);
      return;
    }
    var exports := loaded.exports;
    for i := 0 to |exports|
      invariant fixture == FixtureOf(info, Loaded(exports[..i]))
    {
      assert exports[..i + 1][..i] == exports[..i];
      var m := MatchTestName(exports[i].prop);
      if m.Some? {
        var inv := Invocable(m.value.async, DEFAULT_TIMEOUT, exports[i].fn);
        if m.value.name == "setup" {
          fixture := fixture.(setup := Some(inv));
        } else if m.value.name == "teardown" {
          fixture := fixture.(teardown := Some(inv));
        } else {
          fixture := fixture.(tests := fixture.tests + [TestCase(m.value.name, inv)]);
        }
      }
    }
    assert exports[..|exports|] == exports;
  }

  /** `build_test_suite`: maps every module descriptor to its fixture, in order. */
  method BuildTestSuite(modules: seq<ModuleInfo>, require: string -> Loaded) returns (suite: seq<Fixture>)
    ensures |suite| == |modules|
    ensures forall i :: 0 <= i < |modules| ==> suite[i] == FixtureOf(modules[i], require(modules[i].path))
  {
    suite := [];
    for i := 0 to |modules|
      invariant |suite| == i
      invariant forall j :: 0 <= j < i ==> suite[j] == FixtureOf(modules[j], require(modules[j].path))
    {
      var fixture := BuildFixture(modules[i], require(modules[i].path));
      suite := suite + [fixture];
    }
  }
}
