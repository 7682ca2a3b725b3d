/** Running a suite, a test case or a step from its work directory
    (compass/run/serial.py). */
module Serial {
  import opened Outcomes
  import opened Text
  import opened Clock
  import opened TestCases

  // ---------------------------------------------------------------------
  // Step selection (`_update_steps_to_run`)

  datatype SelectionError = UnknownRequested(name: string) | UnknownExcluded(name: string)

  /** The names in the `steps_to_run` option of the `test_case` section:
      commas count as white space. */
  function ConfigSteps(option: string): (names: seq<string>)
    ensures forall k :: 0 <= k < |names| ==> |names[k]| > 0 && NoSpace(names[k])
  {
    Words(ReplaceChar(option, ',', ' '))
  }

  /** A list written with commas between the names reads back as that list. */
  lemma ConfigStepsCommaList(names: seq<string>)
    requires forall k :: 0 <= k < |names| ==> |names[k]| > 0 && NoSpace(names[k]) && ',' !in names[k]
    ensures ConfigSteps(JoinWith(names, ',')) == names
  {
    ReplaceJoin(names);
    WordsJoin(names);
  }

  /** The first name that is not known, if there is one. */
  function FirstUnknown(names: seq<string>, known: set<string>): (r: Option<string>)
    ensures r.None? <==> forall k :: 0 <= k < |names| ==> names[k] in known
    ensures r.Some? ==> r.value !in known && exists k :: 0 <= k < |names| && names[k] == r.value
                                                            && forall j :: 0 <= j < k ==> names[j] in known
  {
    if names == [] then None
    else if names[0] !in known then Some(names[0])
    else
      var r := FirstUnknown(names[1..], known);
      if r.Some? then
        var k :| 0 <= k < |names[1..]| && names[1..][k] == r.value && r.value !in known
          && forall j :: 0 <= j < k ==> names[1..][j] in known;
        assert names[k + 1] == r.value;
        r
      else r
  }

  /** `[s for s in names if s not in excluded]` */
  function Without(names: seq<string>, excluded: seq<string>): (r: seq<string>)
    ensures |r| <= |names|
    ensures forall x :: x in r <==> x in names && x !in excluded
    ensures forall x :: multiset(r)[x] == if x in excluded then 0 else multiset(names)[x]
  {
    if names == [] then []
    else
      assert names == [names[0]] + names[1..];
      (if names[0] in excluded then [] else [names[0]]) + Without(names[1..], excluded)
  }

  lemma {:induction false} WithoutIsSubsequence(names: seq<string>, excluded: seq<string>)
    ensures IsSubsequence(Without(names, excluded), names)
    decreases |names|
  {
    if names != [] {
      WithoutIsSubsequence(names[1..], excluded);
      var rest := Without(names[1..], excluded);
      assert [names[0]] + names[1..] == names;
      if names[0] in excluded {
        assert Without(names, excluded) == rest;
        SubsequenceSkip(rest, names[0], names[1..]);
      } else {
        assert ([names[0]] + rest)[1..] == rest;
      }
    }
  }

  /** Checks the requested and the excluded step names against the steps
      of the test case and removes the excluded ones from the request. */
  function UpdateStepsToRun(requested: Option<seq<string>>, excluded: Option<seq<string>>,
                            option: string, steps: set<string>): (r: Result<seq<string>, SelectionError>)
    ensures var req := requested.GetOr(ConfigSteps(option));
      r.Err? <==> ((exists k :: 0 <= k < |req| && req[k] !in steps)
                   || (excluded.Some? && exists k :: 0 <= k < |excluded.value| && excluded.value[k] !in steps))
    ensures var req := requested.GetOr(ConfigSteps(option));
      r.Err? && r.error.UnknownRequested? ==> r.error.name in req && r.error.name !in steps
    ensures r.Err? && r.error.UnknownExcluded? ==> excluded.Some? && r.error.name in excluded.value && r.error.name !in steps
    ensures r.Ok? ==> forall k :: 0 <= k < |r.value| ==> r.value[k] in steps
    ensures var req := requested.GetOr(ConfigSteps(option));
      r.Ok? ==> forall x :: x in r.value <==> x in req && (excluded.None? || x !in excluded.value)
    ensures r.Ok? && excluded.None? ==> r.value == requested.GetOr(ConfigSteps(option))
    ensures var req := requested.GetOr(ConfigSteps(option));
      FirstUnknown(req, steps).Some? ==> r == Err(UnknownRequested(FirstUnknown(req, steps).value))
    ensures var req := requested.GetOr(ConfigSteps(option));
      FirstUnknown(req, steps).None? && excluded.Some? && FirstUnknown(excluded.value, steps).Some? ==>
        r == Err(UnknownExcluded(FirstUnknown(excluded.value, steps).value))
    ensures r.Ok? && excluded.Some? ==> r.value == Without(requested.GetOr(ConfigSteps(option)), excluded.value)
  {
    var req := requested.GetOr(ConfigSteps(option));
    var unknown := FirstUnknown(req, steps);
    if unknown.Some? then Err(UnknownRequested(unknown.value))
    else if excluded.None? then Ok(req)
    else
      var unknownExcluded := FirstUnknown(excluded.value, steps);
      if unknownExcluded.Some? then Err(UnknownExcluded(unknownExcluded.value))
      else
        KeptAreKnown(req, excluded.value, steps);
        Ok(Without(req, excluded.value))
  }

  lemma KeptAreKnown(req: seq<string>, excluded: seq<string>, steps: set<string>)
    requires forall k :: 0 <= k < |req| ==> req[k] in steps
    ensures forall k :: 0 <= k < |Without(req, excluded)| ==> Without(req, excluded)[k] in steps
  {
    var r := Without(req, excluded);
    forall k | 0 <= k < |r| ensures r[k] in steps {
      assert r[k] in r;
    }
  }

  /** The steps that are run keep the order in which they were requested. */
  lemma SelectionKeepsOrder(requested: Option<seq<string>>, excluded: Option<seq<string>>,
                            option: string, steps: set<string>)
    requires UpdateStepsToRun(requested, excluded, option, steps).Ok?
    ensures IsSubsequence(UpdateStepsToRun(requested, excluded, option, steps).value,
                          requested.GetOr(ConfigSteps(option)))
  {
    var req := requested.GetOr(ConfigSteps(option));
    if excluded.Some? {
      WithoutIsSubsequence(req, excluded.value);
    } else {
      SubsequenceRefl(req);
    }
  }

  // ---------------------------------------------------------------------
  // Suite runs (`run_tests`)

  /** What the parts of a test case this model does not see will do when
      it runs: the `steps_to_run` option of its config, the world its steps
      meet, whether `validate` raises, what `validate` leaves in
      `validation`, and the seconds the case takes. */
  datatype CaseEnv = CaseEnv(
    stepsOption: string,
    world: World,
    validateRaises: bool,
    validation: Option<Validation>,
    elapsed: real)

  datatype SuiteCase = SuiteCase(testCase: TestCase, env: CaseEnv)

  /** The state of a test case that a suite run reads or writes. */
  datatype CaseSnapshot = CaseSnapshot(
    path: string,
    steps: map<string, StepView>,
    stepsToRun: seq<string>,
    validation: Option<Validation>,
    env: CaseEnv)

  function Snap(c: SuiteCase): CaseSnapshot
    reads c.testCase
  {
    CaseSnapshot(c.testCase.path, c.testCase.steps, c.testCase.stepsToRun, c.testCase.validation, c.env)
  }

  function Snapshots(suite: seq<SuiteCase>): (s: seq<CaseSnapshot>)
    reads set c | c in suite :: c.testCase
    ensures |s| == |suite| && forall j :: 0 <= j < |suite| ==> s[j] == Snap(suite[j])
  {
    if suite == [] then [] else [Snap(suite[0])] + Snapshots(suite[1..])
  }

  datatype RunError =
    | NotSetUp(suite: string)
    | EmptySuite
    | Selection(error: SelectionError)
    | MissingValidationKey(key: string)

  /** The status lines of one case: whether `run` and `validate` went
      through, the two comparisons when they report, and the verdict. */
  datatype Status = Status(executed: bool, internal: Option<bool>, baseline: Option<bool>, passed: bool)

  datatype CaseResult = CaseResult(testName: string, status: Status, runtime: string)

  datatype SuiteReport = SuiteReport(
    cases: seq<CaseResult>,
    failures: nat,
    totalRuntime: string,
    exitCode: int)

  /** How a case fares: it passes when `run` and `validate` went through
      and no comparison in its `validation` dictionary reported `False`; a
      comparison reporting `None` does not count. A dictionary without one
      of the two keys raises. */
  function Verdict(runOk: bool, validateRaises: bool, validation: Option<Validation>): (r: Result<Status, RunError>)
    ensures r.Err? <==> validation.Some? && ("internal_pass" !in validation.value || "baseline_pass" !in validation.value)
    ensures r.Ok? ==> (r.value.executed <==> runOk && !validateRaises)
    ensures r.Ok? ==> (r.value.passed <==> runOk && !validateRaises && CheckValidationSpec(validation).None?)
    ensures r.Ok? && validation.Some? ==>
      r.value.internal == validation.value["internal_pass"] && r.value.baseline == validation.value["baseline_pass"]
    ensures validation.None? ==> r.Ok? && r.value.internal.None? && r.value.baseline.None?
  {
    var executed := runOk && !validateRaises;
    match validation
    case None => Ok(Status(executed, None, None, executed))
    case Some(v) =>
      if "internal_pass" !in v then Err(MissingValidationKey("internal_pass"))
      else if "baseline_pass" !in v then Err(MissingValidationKey("baseline_pass"))
      else Ok(Status(executed, v["internal_pass"], v["baseline_pass"],
                     executed && !Failed(v["internal_pass"]) && !Failed(v["baseline_pass"])))
  }

  /** The rest of a pass once the case's steps are chosen and it has run:
      `validate` runs only after a successful `run` and leaves its verdict
      in `validation`, which decides the case. */
  function Finish(s: CaseSnapshot, runOk: bool): (r: (CaseSnapshot, Result<CaseResult, RunError>))
    ensures !runOk ==> r.0 == s && (r.1.Ok? ==> !r.1.value.status.passed)
    ensures runOk ==> r.0 == s.(validation := s.env.validation)
    ensures r.1.Ok? ==> r.1.value.testName == ReplaceChar(s.path, '/', '_')
  {
    var validation := if runOk then s.env.validation else s.validation;
    var after := s.(validation := validation);
    match Verdict(runOk, s.env.validateRaises, validation)
    case Err(e) => (after, Err(e))
    case Ok(status) => (after, Ok(CaseResult(ReplaceChar(s.path, '/', '_'), status, FormatRuntime(s.env.elapsed))))
  }

  /** One pass of the case loop: the case's new state and its result, or
      the exception that ends the suite. */
  function RunCase(s: CaseSnapshot, requested: Option<seq<string>>, excluded: Option<seq<string>>)
    : (r: (CaseSnapshot, Result<CaseResult, RunError>))
    ensures UpdateStepsToRun(requested, excluded, s.env.stepsOption, s.steps.Keys).Err? ==>
      r == (s, Err(Selection(UpdateStepsToRun(requested, excluded, s.env.stepsOption, s.steps.Keys).error)))
    ensures UpdateStepsToRun(requested, excluded, s.env.stepsOption, s.steps.Keys).Ok? ==>
      r.0.stepsToRun == UpdateStepsToRun(requested, excluded, s.env.stepsOption, s.steps.Keys).value
    ensures r.0.path == s.path && r.0.steps == s.steps && r.0.env == s.env
    ensures r.1.Ok? ==> r.1.value.testName == ReplaceChar(s.path, '/', '_')
  {
    var sel := UpdateStepsToRun(requested, excluded, s.env.stepsOption, s.steps.Keys);
    if sel.Err? then (s, Err(Selection(sel.error)))
    else Finish(s.(stepsToRun := sel.value), CaseRunSpec(s.steps, sel.value, s.env.world).failure.None?)
  }

  /** What each case would do, taken on its own. */
  function Attempts(snaps: seq<CaseSnapshot>, requested: Option<seq<string>>, excluded: Option<seq<string>>)
    : (a: seq<(CaseSnapshot, Result<CaseResult, RunError>)>)
    ensures |a| == |snaps|
  {
    if snaps == [] then [] else [RunCase(snaps[0], requested, excluded)] + Attempts(snaps[1..], requested, excluded)
  }

  /** Attempt `i` is case `i` run on its own. */
  lemma {:induction false} AttemptAt(snaps: seq<CaseSnapshot>, requested: Option<seq<string>>,
                                     excluded: Option<seq<string>>, i: nat)
    requires i < |snaps|
    ensures Attempts(snaps, requested, excluded)[i] == RunCase(snaps[i], requested, excluded)
  {
    if i > 0 {
      AttemptAt(snaps[1..], requested, excluded, i - 1);
    }
  }

  /** The case loop: the cases in order up to the first exception that
      escapes one; the cases after it keep their state. */
  function Collect(snaps: seq<CaseSnapshot>, attempts: seq<(CaseSnapshot, Result<CaseResult, RunError>)>)
    : (r: (seq<CaseSnapshot>, seq<CaseResult>, Option<RunError>))
    requires |attempts| == |snaps|
    ensures |r.0| == |snaps| && |r.1| <= |snaps|
    ensures r.2.None? ==> |r.1| == |snaps|
  {
    if snaps == [] then ([], [], None)
    else if attempts[0].1.Err? then ([attempts[0].0] + snaps[1..], [], Some(attempts[0].1.error))
    else
      var rest := Collect(snaps[1..], attempts[1..]);
      ([attempts[0].0] + rest.0, [attempts[0].1.value] + rest.1, rest.2)
  }

  function CountFailed(results: seq<CaseResult>): (n: nat)
    ensures n <= |results|
    ensures n == 0 <==> forall k :: 0 <= k < |results| ==> results[k].status.passed
  {
    if results == [] then 0
    else (if results[0].status.passed then 0 else 1) + CountFailed(results[1..])
  }

  /** `suite_name[:-len('.pickle')]` when the name ends with `.pickle`. */
  function StripPickleSuffix(name: string): (s: string)
    ensures s + ".pickle" == if EndsWith(name, ".pickle") then name else name + ".pickle"
  {
    if EndsWith(name, ".pickle") then name[..|name| - 7] else name
  }

  function RunTestsSpec(suiteName: string, dirFiles: set<string>, snaps: seq<CaseSnapshot>,
                        requested: Option<seq<string>>, excluded: Option<seq<string>>, suiteElapsed: real)
    : (r: (seq<CaseSnapshot>, Result<SuiteReport, RunError>))
    ensures |r.0| == |snaps|
    ensures StripPickleSuffix(suiteName) + ".pickle" !in dirFiles ==> r == (snaps, Err(NotSetUp(StripPickleSuffix(suiteName))))
    ensures snaps == [] ==> r.1.Err?
    ensures r.1.Ok? ==> |r.1.value.cases| == |snaps| && (r.1.value.exitCode == 0 || r.1.value.exitCode == 1)
  {
    var name := StripPickleSuffix(suiteName);
    if name + ".pickle" !in dirFiles then (snaps, Err(NotSetUp(name)))
    else if snaps == [] then (snaps, Err(EmptySuite))
    else
      var loop := Collect(snaps, Attempts(snaps, requested, excluded));
      if loop.2.Some? then (loop.0, Err(loop.2.value))
      else
        var failures := CountFailed(loop.1);
        (loop.0, Ok(SuiteReport(loop.1, failures, FormatRuntime(suiteElapsed), if failures == 0 then 0 else 1)))
  }

  /** One pass of the case loop on the test case object. */
  method RunOneCase(c: SuiteCase, requested: Option<seq<string>>, excluded: Option<seq<string>>)
    returns (result: Result<CaseResult, RunError>)
    modifies c.testCase
    ensures (Snap(c), result) == RunCase(old(Snap(c)), requested, excluded)
  {
    var tc := c.testCase;
    var sel := UpdateStepsToRun(requested, excluded, c.env.stepsOption, tc.steps.Keys);
    if sel.Err? {
      return Err(Selection(sel.error));
    }
    tc.stepsToRun := sel.value;
    var run := tc.Run(c.env.world);
    result := FinishCase(c, run.failure.None?);
  }

  /** The validation and tally part of the case loop. */
  method FinishCase(c: SuiteCase, runOk: bool) returns (result: Result<CaseResult, RunError>)
    modifies c.testCase
    ensures (Snap(c), result) == Finish(old(Snap(c)), runOk)
  {
    var tc := c.testCase;
    var testPass := runOk;
    if testPass {
      tc.validation := c.env.validation;
      if c.env.validateRaises {
        testPass := false;
      }
    }
    var executed := testPass;
    var internal: Option<bool> := None;
    var baseline: Option<bool> := None;
    if tc.validation.Some? {
      var v := tc.validation.value;
      if "internal_pass" !in v {
        return Err(MissingValidationKey("internal_pass"));
      }
      if "baseline_pass" !in v {
        return Err(MissingValidationKey("baseline_pass"));
      }
      internal := v["internal_pass"];
      baseline := v["baseline_pass"];
      if internal.Some? && !internal.value {
        testPass := false;
      }
      if baseline.Some? && !baseline.value {
        testPass := false;
      }
    }
    result := Ok(CaseResult(ReplaceChar(tc.path, '/', '_'), Status(executed, internal, baseline, testPass),
                            FormatRuntime(c.env.elapsed)));
  }

  /** Runs every case of a suite: chooses its steps, runs it, validates it
      if the run went through, and tallies passes and failures. */
  method RunTests(suiteName: string, dirFiles: set<string>, suite: seq<SuiteCase>,
                  requested: Option<seq<string>>, excluded: Option<seq<string>>, suiteElapsed: real)
    returns (r: Result<SuiteReport, RunError>)
    requires forall i, j :: 0 <= i < j < |suite| ==> suite[i].testCase != suite[j].testCase
    modifies set c | c in suite :: c.testCase
    ensures var spec := RunTestsSpec(suiteName, dirFiles, old(Snapshots(suite)), requested, excluded, suiteElapsed);
      r == spec.1 && Snapshots(suite) == spec.0
  {
    ghost var snaps := Snapshots(suite);
    var name := StripPickleSuffix(suiteName);
    if name + ".pickle" !in dirFiles {
      assert Snapshots(suite) == snaps;
      return Err(NotSetUp(name));
    }
    if |suite| == 0 {
      assert Snapshots(suite) == snaps;
      return Err(EmptySuite);
    }
    ghost var attempts := Attempts(snaps, requested, excluded);
    var results, failures, error := CaseLoop(suite, requested, excluded, snaps, attempts);
    if error.Some? {
      return Err(error.value);
    }
    r := Ok(SuiteReport(results, failures, FormatRuntime(suiteElapsed), if failures == 0 then 0 else 1));
  }

  /** What the case loop holds after `i` cases: their new states are
      `after` and the later cases are untouched, and the results gathered
      with what the remaining cases will add make up the whole loop. */
  ghost predicate Gathered(suite: seq<SuiteCase>, snaps: seq<CaseSnapshot>,
                           attempts: seq<(CaseSnapshot, Result<CaseResult, RunError>)>,
                           i: nat, after: seq<CaseSnapshot>, results: seq<CaseResult>, failures: nat)
    reads set c | c in suite :: c.testCase
  {
    && i <= |suite| == |snaps| == |attempts| && |after| == i
    && Snapshots(suite) == after + snaps[i..]
    && Collect(snaps, attempts)
       == (var rest := Collect(snaps[i..], attempts[i..]); (after + rest.0, results + rest.1, rest.2))
    && failures == CountFailed(results)
  }

  lemma GatheredNone(suite: seq<SuiteCase>, snaps: seq<CaseSnapshot>,
                     attempts: seq<(CaseSnapshot, Result<CaseResult, RunError>)>)
    requires Snapshots(suite) == snaps && |attempts| == |snaps|
    ensures Gathered(suite, snaps, attempts, 0, [], [], 0)
  {
    assert snaps[0..] == snaps && attempts[0..] == attempts;
    assert [] + Collect(snaps, attempts).0 == Collect(snaps, attempts).0;
    assert [] + Collect(snaps, attempts).1 == Collect(snaps, attempts).1;
  }

  lemma GatheredAll(suite: seq<SuiteCase>, snaps: seq<CaseSnapshot>,
                    attempts: seq<(CaseSnapshot, Result<CaseResult, RunError>)>,
                    after: seq<CaseSnapshot>, results: seq<CaseResult>, failures: nat)
    requires Gathered(suite, snaps, attempts, |suite|, after, results, failures)
    ensures Collect(snaps, attempts) == (Snapshots(suite), results, None) && failures == CountFailed(results)
  {
    assert snaps[|suite|..] == [] && attempts[|suite|..] == [];
    assert after + [] == after && results + [] == results;
  }

  /** The loop over the cases of `run_tests`, up to the first exception
      that escapes a case. */
  method CaseLoop(suite: seq<SuiteCase>, requested: Option<seq<string>>, excluded: Option<seq<string>>,
                  ghost snaps: seq<CaseSnapshot>, ghost attempts: seq<(CaseSnapshot, Result<CaseResult, RunError>)>)
    returns (results: seq<CaseResult>, failures: nat, error: Option<RunError>)
    requires forall i, j :: 0 <= i < j < |suite| ==> suite[i].testCase != suite[j].testCase
    requires Snapshots(suite) == snaps && attempts == Attempts(snaps, requested, excluded)
    modifies set c | c in suite :: c.testCase
    ensures Collect(snaps, attempts) == (Snapshots(suite), results, error)
    ensures failures == CountFailed(results)
  {
    failures := 0;
    results := [];
    ghost var after: seq<CaseSnapshot> := [];
    var i := 0;
    GatheredNone(suite, snaps, attempts);
    while i < |suite|
      invariant Gathered(suite, snaps, attempts, i, after, results, failures)
    {
      var stopped;
      results, failures, stopped, after := CaseStep(suite, requested, excluded, snaps, attempts, i, after, results, failures);
      if stopped.Some? {
        return results, failures, stopped;
      }
      i := i + 1;
    }
    GatheredAll(suite, snaps, attempts, after, results, failures);
    error := None;
  }

  /** One pass of that loop: runs case `i` and adds its result, or stops
      at an exception that escapes it. */
  method CaseStep(suite: seq<SuiteCase>, requested: Option<seq<string>>, excluded: Option<seq<string>>,
                  ghost snaps: seq<CaseSnapshot>, ghost attempts: seq<(CaseSnapshot, Result<CaseResult, RunError>)>,
                  i: nat, ghost after: seq<CaseSnapshot>, results: seq<CaseResult>, failures: nat)
    returns (results': seq<CaseResult>, failures': nat, error: Option<RunError>, ghost after': seq<CaseSnapshot>)
    requires forall i, j :: 0 <= i < j < |suite| ==> suite[i].testCase != suite[j].testCase
    requires attempts == Attempts(snaps, requested, excluded)
    requires i < |suite| && Gathered(suite, snaps, attempts, i, after, results, failures)
    modifies set c | c in suite :: c.testCase
    ensures error.Some? ==>
      Collect(snaps, attempts) == (Snapshots(suite), results', error) && failures' == CountFailed(results')
    ensures error.None? ==> Gathered(suite, snaps, attempts, i + 1, after', results', failures')
  {
    ghost var before := Snapshots(suite);
    assert Snap(suite[i]) == before[i] == snaps[i];
    var result := RunAt(suite, i, requested, excluded, snaps, attempts);
    Advance(snaps, attempts, i, after, results);
    after' := after + [attempts[i].0];
    if result.Err? {
      return results, failures, Some(result.error), after';
    }
    failures' := failures;
    if !result.value.status.passed {
      failures' := failures + 1;
    }
    CountFailedAppend(results, result.value);
    results' := results + [result.value];
    error := None;
  }

  /** Runs case `i` of a suite; the other cases' objects are left alone. */
  method RunAt(suite: seq<SuiteCase>, i: nat, requested: Option<seq<string>>, excluded: Option<seq<string>>,
               ghost snaps: seq<CaseSnapshot>, ghost attempts: seq<(CaseSnapshot, Result<CaseResult, RunError>)>)
    returns (result: Result<CaseResult, RunError>)
    requires forall i, j :: 0 <= i < j < |suite| ==> suite[i].testCase != suite[j].testCase
    requires i < |suite| == |snaps| && Snap(suite[i]) == snaps[i] && attempts == Attempts(snaps, requested, excluded)
    modifies suite[i].testCase
    ensures Snapshots(suite) == old(Snapshots(suite))[i := attempts[i].0] && result == attempts[i].1
  {
    AttemptAt(snaps, requested, excluded, i);
    assert forall j :: 0 <= j < |suite| && j != i ==> suite[j].testCase != suite[i].testCase by {
      forall j | 0 <= j < |suite| && j != i
        ensures suite[j].testCase != suite[i].testCase
      {
        if j < i {
          assert suite[j].testCase != suite[i].testCase;
        } else {
          assert suite[i].testCase != suite[j].testCase;
        }
      }
    }
    result := RunCaseAt(suite, i, requested, excluded, attempts[i]);
  }

  method RunCaseAt(suite: seq<SuiteCase>, i: nat, requested: Option<seq<string>>, excluded: Option<seq<string>>,
                   ghost pass: (CaseSnapshot, Result<CaseResult, RunError>))
    returns (result: Result<CaseResult, RunError>)
    requires i < |suite| && forall j :: 0 <= j < |suite| && j != i ==> suite[j].testCase != suite[i].testCase
    requires pass == RunCase(Snap(suite[i]), requested, excluded)
    modifies suite[i].testCase
    ensures Snapshots(suite) == old(Snapshots(suite))[i := pass.0] && result == pass.1
  {
    ghost var before := Snapshots(suite);
    result := RunOneCase(suite[i], requested, excluded);
    assert forall j :: 0 <= j < |suite| && j != i ==> Snap(suite[j]) == before[j];
    SnapshotsAt(suite, i, before);
  }

  /** The snapshots of a suite whose cases other than `i` still look as
      they did in `before`. */
  lemma SnapshotsAt(suite: seq<SuiteCase>, i: nat, before: seq<CaseSnapshot>)
    requires i < |suite| == |before|
    requires forall j :: 0 <= j < |suite| && j != i ==> Snap(suite[j]) == before[j]
    ensures Snapshots(suite) == before[i := Snap(suite[i])]
  {
    var now := Snapshots(suite);
    assert forall j :: 0 <= j < |suite| ==> now[j] == before[i := Snap(suite[i])][j];
  }

  /** One pass of the case loop, on the snapshots and results so far. */
  lemma Advance(snaps: seq<CaseSnapshot>, attempts: seq<(CaseSnapshot, Result<CaseResult, RunError>)>, i: nat,
                after: seq<CaseSnapshot>, results: seq<CaseResult>)
    requires |attempts| == |snaps| && i < |snaps| && |after| == i
    requires Collect(snaps, attempts)
      == var rest := Collect(snaps[i..], attempts[i..]); (after + rest.0, results + rest.1, rest.2)
    ensures (after + snaps[i..])[i := attempts[i].0] == (after + [attempts[i].0]) + snaps[i + 1..]
    ensures attempts[i].1.Err? ==>
      Collect(snaps, attempts) == ((after + [attempts[i].0]) + snaps[i + 1..], results, Some(attempts[i].1.error))
    ensures attempts[i].1.Ok? ==>
      Collect(snaps, attempts) == var rest := Collect(snaps[i + 1..], attempts[i + 1..]);
        ((after + [attempts[i].0]) + rest.0, (results + [attempts[i].1.value]) + rest.1, rest.2)
  {
    ReplaceAt(after, attempts[i].0, snaps[i..]);
    assert snaps[i..][1..] == snaps[i + 1..];
    CollectFrom(snaps, attempts, i);
    if attempts[i].1.Err? {
      Regroup(after, results, attempts[i].0, attempts[i].1.error, snaps[i + 1..]);
    } else {
      Resume(after, results, attempts[i].0, attempts[i].1.value, Collect(snaps[i + 1..], attempts[i + 1..]));
    }
  }

  lemma Regroup(after: seq<CaseSnapshot>, results: seq<CaseResult>, a: CaseSnapshot, e: RunError,
                rest: seq<CaseSnapshot>)
    ensures (after + ([a] + rest), results + [], Some(e)) == ((after + [a]) + rest, results, Some(e))
  {
    assert after + ([a] + rest) == (after + [a]) + rest;
    assert results + [] == results;
  }

  lemma ReplaceAt<T>(front: seq<T>, x: T, back: seq<T>)
    requires back != []
    ensures (front + back)[|front| := x] == (front + [x]) + back[1..]
  {
  }

  /** The case loop seen from case `i` on. */
  lemma CollectFrom(snaps: seq<CaseSnapshot>, attempts: seq<(CaseSnapshot, Result<CaseResult, RunError>)>, i: nat)
    requires |attempts| == |snaps| && i < |snaps|
    ensures var rest := Collect(snaps[i + 1..], attempts[i + 1..]);
      Collect(snaps[i..], attempts[i..])
        == if attempts[i].1.Err? then ([attempts[i].0] + snaps[i + 1..], [], Some(attempts[i].1.error))
           else ([attempts[i].0] + rest.0, [attempts[i].1.value] + rest.1, rest.2)
  {
    assert snaps[i..][1..] == snaps[i + 1..];
    assert attempts[i..][1..] == attempts[i + 1..];
  }

  lemma Resume(after: seq<CaseSnapshot>, results: seq<CaseResult>, a: CaseSnapshot, r: CaseResult,
                rest: (seq<CaseSnapshot>, seq<CaseResult>, Option<RunError>))
    ensures (after + ([a] + rest.0), results + ([r] + rest.1), rest.2)
         == ((after + [a]) + rest.0, (results + [r]) + rest.1, rest.2)
  {
    assert after + ([a] + rest.0) == (after + [a]) + rest.0;
    assert results + ([r] + rest.1) == (results + [r]) + rest.1;
  }

  lemma {:induction false} CountFailedAppend(results: seq<CaseResult>, c: CaseResult)
    ensures CountFailed(results + [c]) == CountFailed(results) + (if c.status.passed then 0 else 1)
    decreases |results|
  {
    if results == [] {
      assert [] + [c] == [c];
    } else {
      assert (results + [c])[1..] == results[1..] + [c];
      CountFailedAppend(results[1..], c);
    }
  }

  // ---------------------------------------------------------------------
  // Properties of a suite run

  /** A case that fails does not stop the suite: when no exception escapes
      a case, every case gets its own result, in order. */
  lemma {:induction false} FailedCasesDoNotStop(snaps: seq<CaseSnapshot>,
                                                attempts: seq<(CaseSnapshot, Result<CaseResult, RunError>)>)
    requires |attempts| == |snaps|
    requires forall j :: 0 <= j < |attempts| ==> attempts[j].1.Ok?
    ensures Collect(snaps, attempts).2.None?
    ensures forall k :: 0 <= k < |snaps| ==> Collect(snaps, attempts).1[k] == attempts[k].1.value
    ensures forall k :: 0 <= k < |snaps| ==> Collect(snaps, attempts).0[k] == attempts[k].0
    decreases |snaps|
  {
    if snaps != [] {
      FailedCasesDoNotStop(snaps[1..], attempts[1..]);
      var rest := Collect(snaps[1..], attempts[1..]);
      forall k | 1 <= k < |snaps|
        ensures Collect(snaps, attempts).1[k] == attempts[k].1.value
        ensures Collect(snaps, attempts).0[k] == attempts[k].0
      {
        assert attempts[1..][k - 1] == attempts[k];
      }
    }
  }

  /** An exception escaping a case ends the suite there: the cases after it
      are neither run nor changed. */
  lemma {:induction false} EscapeEndsSuite(snaps: seq<CaseSnapshot>,
                                           attempts: seq<(CaseSnapshot, Result<CaseResult, RunError>)>, k: nat)
    requires |attempts| == |snaps| && k < |snaps|
    requires attempts[k].1.Err? && forall j :: 0 <= j < k ==> attempts[j].1.Ok?
    ensures Collect(snaps, attempts).2 == Some(attempts[k].1.error)
    ensures |Collect(snaps, attempts).1| == k
    ensures Collect(snaps, attempts).0[k + 1..] == snaps[k + 1..]
    decreases k
  {
    if k > 0 {
      EscapeEndsSuite(snaps[1..], attempts[1..], k - 1);
      var rest := Collect(snaps[1..], attempts[1..]);
      assert ([attempts[0].0] + rest.0)[k + 1..] == rest.0[k..];
      assert snaps[1..][k..] == snaps[k + 1..];
    }
  }

  /** The suite counts its failed cases and exits with status 1 exactly
      when there is at least one. */
  lemma ExitStatus(suiteName: string, dirFiles: set<string>, snaps: seq<CaseSnapshot>,
                   requested: Option<seq<string>>, excluded: Option<seq<string>>, suiteElapsed: real)
    requires RunTestsSpec(suiteName, dirFiles, snaps, requested, excluded, suiteElapsed).1.Ok?
    ensures var report := RunTestsSpec(suiteName, dirFiles, snaps, requested, excluded, suiteElapsed).1.value;
      |report.cases| == |snaps| && report.failures == CountFailed(report.cases)
      && (report.exitCode == 1 <==> exists k :: 0 <= k < |report.cases| && !report.cases[k].status.passed)
      && (report.exitCode == 0 <==> forall k :: 0 <= k < |report.cases| ==> report.cases[k].status.passed)
  {
  }

  /** The mm:ss runtime: `round` to whole seconds, then minutes and the
      remaining seconds, which stay below a minute. */
  lemma RuntimeSplit(t: real)
    ensures var ms := MinutesSeconds(RoundHalfEven(t));
      0 <= ms.1 < 60 && 60 * ms.0 + ms.1 == RoundHalfEven(t)
      && -0.5 <= t - (60 * ms.0 + ms.1) as real <= 0.5
  {
  }

  // ---------------------------------------------------------------------
  // Choosing what to run (`main`)

  datatype Args = Args(
    suite: Option<string>,
    steps: Option<seq<string>>,
    noSteps: Option<seq<string>>,
    substep: Option<string>,
    printSubsteps: bool,
    quiet: bool)

  datatype Entry =
    | RunSuite(suite: string, quiet: bool, isTestCase: bool, steps: Option<seq<string>>,
               noSteps: Option<seq<string>>, printSubsteps: bool)
    | RunStepEntry(printSubsteps: bool)
    | RunSubstepEntry(substep: string)

  datatype EntryError = NoPickleFiles | SeveralSuites

  /** The names `glob('*.pickle')` matches: `*` does not match a leading dot. */
  predicate IsPickleName(p: string) {
    EndsWith(p, ".pickle") && p[0] != '.'
  }

  function PickleFiles(listing: seq<string>): (ps: seq<string>)
    ensures forall p :: p in ps <==> p in listing && IsPickleName(p)
  {
    if listing == [] then []
    else (if IsPickleName(listing[0]) then [listing[0]] else []) + PickleFiles(listing[1..])
  }

  /** `main`: a named suite first, then a test case, then a step (or one of
      its substeps), then the one suite in the directory. */
  function ChooseEntry(args: Args, listing: seq<string>): (r: Result<Entry, EntryError>)
    ensures r.Err? ==> args.suite.None? && "test_case.pickle" !in listing && "step.pickle" !in listing
    ensures r.Ok? && r.value.RunSubstepEntry? ==> args.substep == Some(r.value.substep) && "step.pickle" in listing
    ensures r.Ok? && r.value.RunSuite? && args.suite.None? && !r.value.isTestCase ==>
      |PickleFiles(listing)| == 1
  {
    var printSubsteps := args.printSubsteps && !args.quiet;
    if args.suite.Some? then Ok(RunSuite(args.suite.value, args.quiet, false, None, None, false))
    else if "test_case.pickle" in listing then
      Ok(RunSuite("test_case", args.quiet, true, args.steps, args.noSteps, printSubsteps))
    else if "step.pickle" in listing then
      if args.substep.None? then Ok(RunStepEntry(printSubsteps)) else Ok(RunSubstepEntry(args.substep.value))
    else
      var pickles := PickleFiles(listing);
      if |pickles| == 1 then Ok(RunSuite(SplitextRoot(Basename(pickles[0])), args.quiet, false, None, None, printSubsteps))
      else if |pickles| == 0 then Err(NoPickleFiles)
      else Err(SeveralSuites)
  }

  /** `--quiet` turns off substep names wherever they would be printed. */
  lemma QuietHidesSubsteps(args: Args, listing: seq<string>)
    requires args.quiet
    ensures var r := ChooseEntry(args, listing);
      r.Ok? && (r.value.RunSuite? || r.value.RunStepEntry?) ==> !r.value.printSubsteps
  {
  }

  /** Which entry point runs, in order of precedence. */
  lemma EntryPrecedence(args: Args, listing: seq<string>)
    ensures args.suite.Some? ==>
      ChooseEntry(args, listing).Ok? && ChooseEntry(args, listing).value.RunSuite?
      && ChooseEntry(args, listing).value.suite == args.suite.value
    ensures args.suite.None? && "test_case.pickle" in listing ==>
      ChooseEntry(args, listing).Ok? && ChooseEntry(args, listing).value.RunSuite?
      && ChooseEntry(args, listing).value.isTestCase
      && ChooseEntry(args, listing).value.steps == args.steps
      && ChooseEntry(args, listing).value.noSteps == args.noSteps
    ensures args.suite.None? && "test_case.pickle" !in listing && "step.pickle" in listing ==>
      ChooseEntry(args, listing).Ok?
      && (ChooseEntry(args, listing).value.RunSubstepEntry? <==> args.substep.Some?)
    ensures (ChooseEntry(args, listing).Ok? && ChooseEntry(args, listing).value.RunSuite?
             && !ChooseEntry(args, listing).value.isTestCase) ==>
        ChooseEntry(args, listing).value.steps.None? && ChooseEntry(args, listing).value.noSteps.None?
  {
  }

  /** Without a suite name, a test case or a step, exactly one pickle file
      is needed: none raises one error, more than one another. */
  lemma EntryFromGlob(args: Args, listing: seq<string>)
    requires args.suite.None? && "test_case.pickle" !in listing && "step.pickle" !in listing
    ensures ChooseEntry(args, listing) == Err(NoPickleFiles) <==> forall p :: p in listing ==> !IsPickleName(p)
    ensures ChooseEntry(args, listing) == Err(SeveralSuites) <==> |PickleFiles(listing)| > 1
  {
    var ps := PickleFiles(listing);
    if ps != [] {
      assert ps[0] in ps;
    }
  }

  /** The suite found by the glob is the pickle file's name without its
      extension, so `run_tests` looks for that same file, unless the name
      left over itself ends with `.pickle`. */
  lemma GlobbedSuiteFileFound(args: Args, listing: seq<string>)
    requires forall p :: p in listing ==> '/' !in p
    requires args.suite.None? && "test_case.pickle" !in listing && "step.pickle" !in listing
    requires |PickleFiles(listing)| == 1
    ensures var e := ChooseEntry(args, listing).value;
      var file := PickleFiles(listing)[0];
      EndsWith(file, ".pickle") && e.suite == file[..|file| - 7]
      && (!EndsWith(e.suite, ".pickle") ==> StripPickleSuffix(e.suite) + ".pickle" == file)
      && file in listing
  {
    var file := PickleFiles(listing)[0];
    assert file in PickleFiles(listing);
    PickleSuiteName(file);
  }

  /** The suite name of a plain pickle file is the file name without
      ".pickle", and `run_tests` adds the extension back unless that name
      still ends with ".pickle". */
  lemma PickleSuiteName(file: string)
    requires IsPickleName(file) && '/' !in file
    ensures SplitextRoot(Basename(file)) == file[..|file| - 7]
    ensures !EndsWith(file[..|file| - 7], ".pickle") ==> StripPickleSuffix(file[..|file| - 7]) + ".pickle" == file
  {
    var name := file[..|file| - 7];
    assert name + ".pickle" == file;
    assert !EndsWith(name, ".pickle") ==> StripPickleSuffix(name) == name;
    SplitextPickle(file);
  }
}
