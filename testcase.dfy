/** A test case and the running of its steps (compass/testcase.py).

    A step is seen through `StepView`, the part of a step object that the
    test case reads; the files on disk are a set of paths, and everything
    the step's substeps do to the outside world is recorded as an `Event`
    in a trace. */
module TestCases {
  import opened Outcomes
  import opened Text
  import opened Substeps

  /** A substep, named by its step and its own name. */
  type SubstepId = (string, string)

  datatype StepView = StepView(
    name: string,
    inputs: seq<string>,
    outputs: seq<string>,
    substeps: map<string, SubstepInfo>,
    substepsToRun: seq<string>,
    runSubstepsAsCommands: bool,
    cached: bool)

  /** What a step's `runtime_setup` and resource fitting leave in it: its
      substeps, with their fitted resources, and the names of those to run. */
  datatype Preparation = Preparation(substeps: map<string, SubstepInfo>, substepsToRun: seq<string>)

  /** What the code that this model does not see will do: the files that
      exist, the substeps whose dispatch raises, the files each substep
      writes when it succeeds, the steps whose `runtime_setup` or
      resource fitting raises, and what preparation makes of the steps it
      changes. */
  datatype World = World(
    files: set<string>,
    fails: set<SubstepId>,
    creates: map<SubstepId, set<string>>,
    unfit: set<string>,
    prepared: map<string, Preparation>)

  function Created(w: World, id: SubstepId): set<string> {
    if id in w.creates then w.creates[id] else {}
  }

  datatype Event =
    | RuntimeSetup(step: string)
    | ConstrainResources(step: string)
      /** `run_command` of an argument list with the substep's resources */
    | Command(step: string, substep: string, args: seq<string>, resources: Resources)
      /** `substep.run()` in this process */
    | InProcess(step: string, substep: string)

  datatype Failure =
    | UnknownStep(name: string)
    | UnknownSubstep(step: string, name: string)
    | SetupFailed(step: string)
    | MissingInputs(step: string, files: seq<string>)
    | MissingOutputs(step: string, files: seq<string>)
    | SubstepFailed(step: string, substep: string)

  /** The trace of a run, the files that exist afterwards and the exception
      that ended it, if any. */
  datatype Outcome = Outcome(events: seq<Event>, files: set<string>, failure: Option<Failure>)

  function Prefixed(pre: seq<Event>, o: Outcome): Outcome {
    Outcome(pre + o.events, o.files, o.failure)
  }

  /** The names, in list order, of the files that do not exist. */
  function Missing(names: seq<string>, files: set<string>): (m: seq<string>)
    ensures |m| <= |names|
    ensures forall x :: x in m <==> x in names && x !in files
  {
    if names == [] then []
    else (if names[0] in files then [] else [names[0]]) + Missing(names[1..], files)
  }

  /** `Missing` keeps every missing name as often as it is listed and
      drops every present one. */
  lemma {:induction false} MissingCounts(names: seq<string>, files: set<string>)
    ensures forall x :: multiset(Missing(names, files))[x] == if x in files then 0 else multiset(names)[x]
  {
    if names != [] {
      MissingCounts(names[1..], files);
      var first: seq<string> := if names[0] in files then [] else [names[0]];
      var rest := Missing(names[1..], files);
      assert names == [names[0]] + names[1..];
      assert multiset(names) == multiset([names[0]]) + multiset(names[1..]);
      assert multiset(Missing(names, files)) == multiset(first) + multiset(rest);
    }
  }

  /** `Missing` keeps the list's order. */
  lemma {:induction false} MissingInOrder(names: seq<string>, files: set<string>)
    ensures IsSubsequence(Missing(names, files), names)
  {
    if names != [] {
      MissingInOrder(names[1..], files);
      var rest := Missing(names[1..], files);
      assert names == [names[0]] + names[1..];
      if names[0] in files {
        assert Missing(names, files) == [] + rest == rest;
        SubsequenceSkip(rest, names[0], names[1..]);
      } else {
        assert Missing(names, files) == [names[0]] + rest;
        assert ([names[0]] + rest)[1..] == rest;
      }
    }
  }

  method MissingFiles(names: seq<string>, files: set<string>) returns (missing: seq<string>)
    ensures missing == Missing(names, files)
  {
    missing := [];
    for i := 0 to |names|
      invariant missing == Missing(names[..i], files)
    {
      assert names[..i + 1] == names[..i] + [names[i]];
      MissingSnoc(names[..i], names[i], files);
      if names[i] !in files {
        missing := missing + [names[i]];
      }
    }
    assert names[..|names|] == names;
  }

  /** Checking one more name appends it when it is missing. */
  lemma {:induction false} MissingSnoc(names: seq<string>, x: string, files: set<string>)
    ensures Missing(names + [x], files) == Missing(names, files) + (if x in files then [] else [x])
  {
    if names == [] {
      assert [] + [x] == [x];
      assert [x][1..] == [];
    } else {
      assert (names + [x])[1..] == names[1..] + [x];
      MissingSnoc(names[1..], x, files);
      var first: seq<string> := if names[0] in files then [] else [names[0]];
      var last: seq<string> := if x in files then [] else [x];
      assert Missing(names + [x], files) == first + (Missing(names[1..], files) + last);
      assert first + (Missing(names[1..], files) + last) == (first + Missing(names[1..], files)) + last;
    }
  }

  /** The command line that runs one substep of the step in this directory. */
  function SubstepCommand(name: string): seq<string> {
    ["compass", "run", "--substep", name]
  }

  /** How a substep is run: its own argument list if it has one, otherwise a
      `compass run --substep` command when the step asks for commands,
      otherwise in this process. */
  function Dispatch(step: StepView, name: string, sub: SubstepInfo): (e: Event)
    ensures (e.Command? || e.InProcess?) && e.step == step.name && e.substep == name
    ensures e.InProcess? <==> sub.args.None? && !step.runSubstepsAsCommands
    ensures e.Command? ==> e.resources == sub.resources
    ensures e.Command? && sub.args.Some? ==> e.args == sub.args.value
    ensures e.Command? && sub.args.None? ==> e.args == ["compass", "run", "--substep", name]
  {
    if sub.args.Some? then Command(step.name, name, sub.args.value, sub.resources)
    else if step.runSubstepsAsCommands then Command(step.name, name, SubstepCommand(name), sub.resources)
    else InProcess(step.name, name)
  }

  /** Runs the named substeps in order, stopping at the first that raises. */
  function RunSubsteps(step: StepView, names: seq<string>, w: World, files: set<string>): Outcome
    decreases |names|
  {
    if names == [] then Outcome([], files, None)
    else if names[0] !in step.substeps then Outcome([], files, Some(UnknownSubstep(step.name, names[0])))
    else
      var e := Dispatch(step, names[0], step.substeps[names[0]]);
      if (step.name, names[0]) in w.fails then Outcome([e], files, Some(SubstepFailed(step.name, names[0])))
      else Prefixed([e], RunSubsteps(step, names[1..], w, files + Created(w, (step.name, names[0]))))
  }

  /** `_run_step`: the input gate, the substeps, then the output gate. */
  function RunStepSpec(step: StepView, w: World, files: set<string>): (o: Outcome)
    ensures files <= o.files
    ensures o.failure.None? ==> forall f :: f in step.outputs ==> f in o.files
    ensures o.failure.Some? ==>
      (o.failure.value.MissingInputs? || o.failure.value.UnknownSubstep?
       || o.failure.value.SubstepFailed? || o.failure.value.MissingOutputs?)
      && o.failure.value.step == step.name
  {
    RunSubstepsFailures(step, step.substepsToRun, w, files);
    var missingIn := Missing(step.inputs, files);
    if |missingIn| > 0 then Outcome([], files, Some(MissingInputs(step.name, missingIn)))
    else
      var sub := RunSubsteps(step, step.substepsToRun, w, files);
      if sub.failure.Some? then sub
      else
        var missingOut := Missing(step.outputs, sub.files);
        if |missingOut| > 0 then Outcome(sub.events, sub.files, Some(MissingOutputs(step.name, missingOut)))
        else sub
  }

  method RunStep(step: StepView, w: World, files: set<string>) returns (o: Outcome)
    ensures o == RunStepSpec(step, w, files)
  {
    var missing := MissingFiles(step.inputs, files);
    if |missing| > 0 {
      return Outcome([], files, Some(MissingInputs(step.name, missing)));
    }
    var events: seq<Event> := [];
    var now := files;
    var i := 0;
    while i < |step.substepsToRun|
      invariant 0 <= i <= |step.substepsToRun|
      invariant RunSubsteps(step, step.substepsToRun, w, files)
        == Prefixed(events, RunSubsteps(step, step.substepsToRun[i..], w, now))
    {
      var name := step.substepsToRun[i];
      if name !in step.substeps {
        return Outcome(events, now, Some(UnknownSubstep(step.name, name)));
      }
      var e := Dispatch(step, name, step.substeps[name]);
      if (step.name, name) in w.fails {
        return Outcome(events + [e], now, Some(SubstepFailed(step.name, name)));
      }
      var next := now + Created(w, (step.name, name));
      assert step.substepsToRun[i..][1..] == step.substepsToRun[i + 1..];
      assert events + ([e] + RunSubsteps(step, step.substepsToRun[i + 1..], w, next).events)
          == (events + [e]) + RunSubsteps(step, step.substepsToRun[i + 1..], w, next).events;
      events := events + [e];
      now := next;
      i := i + 1;
    }
    missing := MissingFiles(step.outputs, now);
    assert events + [] == events;
    if |missing| > 0 {
      return Outcome(events, now, Some(MissingOutputs(step.name, missing)));
    }
    o := Outcome(events, now, None);
  }

  /** `prepare_steps_to_run`: every step to run that is not cached gets its
      `runtime_setup` and then its resource fitting, in order. */
  function PrepareSpec(steps: map<string, StepView>, names: seq<string>, w: World): (p: (seq<Event>, Option<Failure>))
    decreases |names|
  {
    if names == [] then ([], None)
    else if names[0] !in steps then ([], Some(UnknownStep(names[0])))
    else if steps[names[0]].cached then PrepareSpec(steps, names[1..], w)
    else if names[0] in w.unfit then ([RuntimeSetup(names[0])], Some(SetupFailed(names[0])))
    else
      var rest := PrepareSpec(steps, names[1..], w);
      ([RuntimeSetup(names[0]), ConstrainResources(names[0])] + rest.0, rest.1)
  }

  /** The step as `prepare_steps_to_run` leaves it: its substeps and the
      list to run are the ones preparation gave it, if it changed them; its
      name, files, dispatch mode and cache flag stay. */
  function Prepared(step: StepView, w: World): (p: StepView)
    ensures p.name == step.name && p.inputs == step.inputs && p.outputs == step.outputs
    ensures p.runSubstepsAsCommands == step.runSubstepsAsCommands && p.cached == step.cached
    ensures step.name !in w.prepared ==> p == step
    ensures step.name in w.prepared ==>
      p.substeps == w.prepared[step.name].substeps && p.substepsToRun == w.prepared[step.name].substepsToRun
  {
    if step.name in w.prepared then
      step.(substeps := w.prepared[step.name].substeps, substepsToRun := w.prepared[step.name].substepsToRun)
    else step
  }

  /** The step loop of `run`: cached steps are skipped, each other step runs
      as preparation left it, and the first failure ends the run. */
  function RunStepsSpec(steps: map<string, StepView>, names: seq<string>, w: World, files: set<string>): Outcome
    decreases |names|
  {
    if names == [] then Outcome([], files, None)
    else if names[0] !in steps then Outcome([], files, Some(UnknownStep(names[0])))
    else if steps[names[0]].cached then RunStepsSpec(steps, names[1..], w, files)
    else
      var o := RunStepSpec(Prepared(steps[names[0]], w), w, files);
      if o.failure.Some? then o
      else Prefixed(o.events, RunStepsSpec(steps, names[1..], w, o.files))
  }

  /** `run`: prepare every step to run, then run them. */
  function CaseRunSpec(steps: map<string, StepView>, names: seq<string>, w: World): (o: Outcome)
    ensures w.files <= o.files
    ensures o.failure.None? ==> forall x :: x in names ==> x in steps
    ensures o.failure.Some? && o.failure.value.SetupFailed? ==> o.files == w.files && o.failure.value.step in w.unfit
  {
    PrepareOutcome(steps, names, w);
    RunStepsOutcome(steps, names, w, w.files);
    var p := PrepareSpec(steps, names, w);
    if p.1.Some? then Outcome(p.0, w.files, p.1)
    else Prefixed(p.0, RunStepsSpec(steps, names, w, w.files))
  }

  /** Preparation succeeds only when every step to run is known, and fails
      only on an unknown step or on a step whose setup or fitting raises. */
  lemma {:induction false} PrepareOutcome(steps: map<string, StepView>, names: seq<string>, w: World)
    ensures var p := PrepareSpec(steps, names, w);
      (p.1.None? ==> forall x :: x in names ==> x in steps)
      && (p.1.Some? ==>
            (p.1.value.UnknownStep? && p.1.value.name in names && p.1.value.name !in steps)
            || (p.1.value.SetupFailed? && p.1.value.step in names && p.1.value.step in w.unfit))
    decreases |names|
  {
    if names != [] && names[0] in steps && (steps[names[0]].cached || names[0] !in w.unfit) {
      PrepareOutcome(steps, names[1..], w);
      assert names == [names[0]] + names[1..];
    }
  }

  /** The step loop only adds files, succeeds only when every listed step
      is known, never reports a setup failure, and an unknown-step error
      names a listed step that is not there. */
  lemma {:induction false} RunStepsOutcome(steps: map<string, StepView>, names: seq<string>, w: World,
                                           files: set<string>)
    ensures var o := RunStepsSpec(steps, names, w, files);
      files <= o.files
      && (o.failure.None? ==> forall x :: x in names ==> x in steps)
      && (o.failure.Some? ==> !o.failure.value.SetupFailed?)
      && (o.failure.Some? && o.failure.value.UnknownStep? ==>
            o.failure.value.name in names && o.failure.value.name !in steps)
    decreases |names|
  {
    if names != [] && names[0] in steps {
      assert names == [names[0]] + names[1..];
      if steps[names[0]].cached {
        RunStepsOutcome(steps, names[1..], w, files);
      } else {
        var o := RunStepSpec(Prepared(steps[names[0]], w), w, files);
        if o.failure.None? {
          RunStepsOutcome(steps, names[1..], w, o.files);
        }
      }
    }
  }

  /** The step loop of `run`. */
  method RunSteps(steps: map<string, StepView>, names: seq<string>, w: World) returns (o: Outcome)
    ensures o == RunStepsSpec(steps, names, w, w.files)
  {
    var events: seq<Event> := [];
    var files := w.files;
    var i := 0;
    assert names[0..] == names;
    while i < |names|
      invariant 0 <= i <= |names|
      invariant RunStepsSpec(steps, names, w, w.files) == Prefixed(events, RunStepsSpec(steps, names[i..], w, files))
    {
      var stepName := names[i];
      assert names[i..] == [stepName] + names[i + 1..];
      RunStepsCons(steps, stepName, names[i + 1..], w, files);
      if stepName !in steps {
        return Outcome(events, files, Some(UnknownStep(stepName)));
      }
      if !steps[stepName].cached {
        var r := RunStep(Prepared(steps[stepName], w), w, files);
        if r.failure.Some? {
          return Outcome(events + r.events, r.files, r.failure);
        }
        PrefixedTwice(events, r, RunStepsSpec(steps, names[i..], w, files), RunStepsSpec(steps, names[i + 1..], w, r.files));
        events := events + r.events;
        files := r.files;
      }
      i := i + 1;
    }
    assert events + [] == events;
    o := Outcome(events, files, None);
  }

  /** The key under which each step is stored is the step's own name. */
  predicate NamesMatch(steps: map<string, StepView>) {
    forall k :: k in steps ==> steps[k].name == k
  }

  /** The test case's `validation` dictionary. */
  type Validation = map<string, Option<bool>>

  datatype ValidationError = MissingKey(key: string) | ComparisonFailed

  /** A comparison that ran and reported a difference. */
  predicate Failed(result: Option<bool>) {
    result == Some(false)
  }

  /** `check_validation` as it is written: the `raise` sits under
      `if both_pass`, so it fires exactly when no comparison failed. */
  function CheckValidationAsWritten(validation: Option<Validation>): (r: Option<ValidationError>)
    ensures validation.None? ==> r.None?
    ensures r == Some(ComparisonFailed) <==>
      validation.Some? && "internal_pass" in validation.value && "baseline_pass" in validation.value
      && !Failed(validation.value["internal_pass"]) && !Failed(validation.value["baseline_pass"])
    ensures r.Some? && r.value.MissingKey? ==> validation.Some? && r.value.key !in validation.value
  {
    match validation
    case None => None
    case Some(v) =>
      if "internal_pass" !in v then Some(MissingKey("internal_pass"))
      else if "baseline_pass" !in v then Some(MissingKey("baseline_pass"))
      else
        var bothPass := !Failed(v["internal_pass"]) && !Failed(v["baseline_pass"]);
        if bothPass then Some(ComparisonFailed) else None
  }

  /** `check_validation` with the guard its message calls for: it raises
      when a comparison failed. */
  function CheckValidationSpec(validation: Option<Validation>): (r: Option<ValidationError>)
    ensures validation.None? ==> r.None?
    ensures r == Some(ComparisonFailed) <==>
      validation.Some? && "internal_pass" in validation.value && "baseline_pass" in validation.value
      && (Failed(validation.value["internal_pass"]) || Failed(validation.value["baseline_pass"]))
    ensures r.Some? && r.value.MissingKey? ==> validation.Some? && r.value.key !in validation.value
  {
    match validation
    case None => None
    case Some(v) =>
      if "internal_pass" !in v then Some(MissingKey("internal_pass"))
      else if "baseline_pass" !in v then Some(MissingKey("baseline_pass"))
      else if Failed(v["internal_pass"]) || Failed(v["baseline_pass"]) then Some(ComparisonFailed)
      else None
  }

  /** Where both keys are present the written check is the exact opposite
      of the intended one. */
  lemma CheckValidationInverted(v: Validation)
    requires "internal_pass" in v && "baseline_pass" in v
    ensures CheckValidationAsWritten(Some(v)).Some? <==> CheckValidationSpec(Some(v)).None?
  {
  }

  /** Two passing comparisons: the written check raises, the intended one
      does not. */
  lemma CheckValidationPassingRaises()
    ensures CheckValidationAsWritten(Some(map["internal_pass" := Some(true), "baseline_pass" := Some(true)]))
      == Some(ComparisonFailed)
    ensures CheckValidationSpec(Some(map["internal_pass" := Some(true), "baseline_pass" := Some(true)])).None?
  {
    var v := map["internal_pass" := Some(true), "baseline_pass" := Some(true)];
    assert "internal_pass" in v && "baseline_pass" in v;
    assert v["internal_pass"] == Some(true) && v["baseline_pass"] == Some(true);
  }

  /** The test group a test case belongs to, by name. */
  datatype TestGroup = TestGroup(mpasCore: string, name: string)

  class TestCase {
    const name: string
    const mpasCore: string
    const testGroup: string
    const subdir: string
    const path: string
    var steps: map<string, StepView>
    var stepsToRun: seq<string>
    var validation: Option<Validation>

    predicate Valid()
      reads this
    {
      NamesMatch(steps)
    }

    constructor (testGroup: TestGroup, name: string, subdir: Option<string> := None)
      ensures this.name == name && mpasCore == testGroup.mpasCore && this.testGroup == testGroup.name
      ensures this.subdir == subdir.GetOr(name)
      ensures path == PathJoin(PathJoin(testGroup.mpasCore, testGroup.name), this.subdir)
      ensures steps == map[] && stepsToRun == [] && validation == None
      ensures Valid()
    {
      this.name := name;
      mpasCore := testGroup.mpasCore;
      this.testGroup := testGroup.name;
      var sub := if subdir.Some? then subdir.value else name;
      this.subdir := sub;
      path := PathJoin(PathJoin(testGroup.mpasCore, testGroup.name), sub);
      steps := map[];
      stepsToRun := [];
      validation := None;
    }

    /** Stores the step under its name, and schedules it when it runs by
        default. */
    method AddStep(step: StepView, runByDefault: bool := true)
      modifies this
      ensures steps == old(steps)[step.name := step]
      ensures stepsToRun == old(stepsToRun) + (if runByDefault then [step.name] else [])
      ensures validation == old(validation)
      ensures old(Valid()) ==> Valid()
    {
      steps := steps[step.name := step];
      if runByDefault {
        stepsToRun := stepsToRun + [step.name];
      }
    }

    method PrepareStepsToRun(w: World) returns (events: seq<Event>, failure: Option<Failure>)
      ensures (events, failure) == PrepareSpec(steps, stepsToRun, w)
    {
      events := [];
      var i := 0;
      assert stepsToRun[0..] == stepsToRun;
      assert [] + PrepareSpec(steps, stepsToRun, w).0 == PrepareSpec(steps, stepsToRun, w).0;
      while i < |stepsToRun|
        invariant 0 <= i <= |stepsToRun|
        invariant PrepareSpec(steps, stepsToRun, w)
          == (events + PrepareSpec(steps, stepsToRun[i..], w).0, PrepareSpec(steps, stepsToRun[i..], w).1)
      {
        var stepName := stepsToRun[i];
        assert stepsToRun[i..][1..] == stepsToRun[i + 1..];
        if stepName !in steps {
          assert events + [] == events;
          return events, Some(UnknownStep(stepName));
        }
        if !steps[stepName].cached {
          if stepName in w.unfit {
            return events + [RuntimeSetup(stepName)], Some(SetupFailed(stepName));
          }
          var rest := PrepareSpec(steps, stepsToRun[i + 1..], w).0;
          assert events + ([RuntimeSetup(stepName), ConstrainResources(stepName)] + rest)
              == (events + [RuntimeSetup(stepName), ConstrainResources(stepName)]) + rest;
          events := events + [RuntimeSetup(stepName), ConstrainResources(stepName)];
        }
        i := i + 1;
      }
      assert events + [] == events;
      failure := None;
    }

    /** `run`: prepares the steps to run, then runs each one that is not
        cached, in order, and re-raises the first failure. */
    method Run(w: World) returns (o: Outcome)
      ensures o == CaseRunSpec(steps, stepsToRun, w)
    {
      var prepared, failure := PrepareStepsToRun(w);
      if failure.Some? {
        return Outcome(prepared, w.files, failure);
      }
      var ran := RunSteps(steps, stepsToRun, w);
      o := Prefixed(prepared, ran);
    }

    /** `check_validation`, with the guard corrected (see
        `CheckValidationAsWritten` for the code as written). */
    method CheckValidation() returns (err: Option<ValidationError>)
      ensures err == CheckValidationSpec(validation)
    {
      err := None;
      if validation.Some? {
        var v := validation.value;
        if "internal_pass" !in v {
          return Some(MissingKey("internal_pass"));
        }
        if "baseline_pass" !in v {
          return Some(MissingKey("baseline_pass"));
        }
        var bothPass := true;
        if Failed(v["internal_pass"]) {
          bothPass := false;
        }
        if Failed(v["baseline_pass"]) {
          bothPass := false;
        }
        if !bothPass {
          err := Some(ComparisonFailed);
        }
      }
    }
  }

  // ---------------------------------------------------------------------
  // Properties of a step run

  /** A test case's path is its core, its group and its subdirectory. */
  lemma PathComponents(testGroup: TestGroup, name: string, subdir: Option<string>)
    requires testGroup.mpasCore != [] && testGroup.name != []
    requires '/' !in testGroup.mpasCore && '/' !in testGroup.name && '/' !in subdir.GetOr(name)
    ensures SplitOn(PathJoin(PathJoin(testGroup.mpasCore, testGroup.name), subdir.GetOr(name)), '/')
      == [testGroup.mpasCore, testGroup.name, subdir.GetOr(name)]
  {
    PathJoinComponents(testGroup.mpasCore, testGroup.name, subdir.GetOr(name));
  }

  /** Running substeps only ever fails on an unknown name or a raising
      substep, and it only adds files. */
  lemma {:induction false} RunSubstepsFailures(step: StepView, names: seq<string>, w: World, files: set<string>)
    ensures var o := RunSubsteps(step, names, w, files);
      files <= o.files
      && (o.failure.Some? ==> (o.failure.value.UnknownSubstep? || o.failure.value.SubstepFailed?)
                              && o.failure.value.step == step.name)
    decreases |names|
  {
    if names != [] && names[0] in step.substeps && (step.name, names[0]) !in w.fails {
      RunSubstepsFailures(step, names[1..], w, files + Created(w, (step.name, names[0])));
    }
  }

  /** Missing inputs stop the step before any substep is dispatched, and
      the error lists exactly the missing inputs; with every input present
      the input gate does not fire. */
  lemma InputGate(step: StepView, w: World, files: set<string>)
    ensures var o := RunStepSpec(step, w, files);
      (exists f :: f in step.inputs && f !in files) <==> (o.failure.Some? && o.failure.value.MissingInputs?)
    ensures var o := RunStepSpec(step, w, files);
      o.failure.Some? && o.failure.value.MissingInputs? ==>
        o.events == [] && o.files == files && o.failure.value.files == Missing(step.inputs, files)
        && (forall f :: f in o.failure.value.files <==> f in step.inputs && f !in files)
  {
    var m := Missing(step.inputs, files);
    if m == [] {
      RunSubstepsFailures(step, step.substepsToRun, w, files);
    } else {
      assert m[0] in m;
    }
  }

  /** When the substeps all succeed they were dispatched once each, in the
      order of `substeps_to_run`. */
  lemma {:induction false} SubstepsInOrder(step: StepView, names: seq<string>, w: World, files: set<string>)
    requires RunSubsteps(step, names, w, files).failure.None?
    ensures var o := RunSubsteps(step, names, w, files);
      |o.events| == |names|
      && forall i :: 0 <= i < |names| ==>
        names[i] in step.substeps && o.events[i] == Dispatch(step, names[i], step.substeps[names[i]])
    decreases |names|
  {
    if names != [] {
      var next := files + Created(w, (step.name, names[0]));
      SubstepsInOrder(step, names[1..], w, next);
      var rest := RunSubsteps(step, names[1..], w, next);
      forall i | 0 <= i < |names|
        ensures names[i] in step.substeps
        ensures RunSubsteps(step, names, w, files).events[i] == Dispatch(step, names[i], step.substeps[names[i]])
      {
        if i > 0 {
          assert names[i] == names[1..][i - 1];
        }
      }
    }
  }

  /** A raising substep is the last thing dispatched, and it is one the
      world marks as raising. */
  lemma {:induction false} FailingSubstepIsLast(step: StepView, names: seq<string>, w: World, files: set<string>)
    requires RunSubsteps(step, names, w, files).failure.Some?
    requires RunSubsteps(step, names, w, files).failure.value.SubstepFailed?
    ensures var o := RunSubsteps(step, names, w, files);
      var f := o.failure.value;
      f.step == step.name && (f.step, f.substep) in w.fails && f.substep in step.substeps
      && |o.events| > 0
      && o.events[|o.events| - 1] == Dispatch(step, f.substep, step.substeps[f.substep])
    decreases |names|
  {
    if names != [] && names[0] in step.substeps && (step.name, names[0]) !in w.fails {
      FailingSubstepIsLast(step, names[1..], w, files + Created(w, (step.name, names[0])));
    }
  }

  /** A step that succeeds leaves every declared output present; a step
      whose substeps succeed but leave outputs missing fails naming exactly
      those outputs. */
  lemma OutputGate(step: StepView, w: World, files: set<string>)
    ensures var o := RunStepSpec(step, w, files);
      o.failure.None? ==> forall f :: f in step.outputs ==> f in o.files
    ensures var sub := RunSubsteps(step, step.substepsToRun, w, files);
      var o := RunStepSpec(step, w, files);
      Missing(step.inputs, files) == [] && sub.failure.None?
      && (exists f :: f in step.outputs && f !in sub.files) ==>
        o.failure == Some(MissingOutputs(step.name, Missing(step.outputs, sub.files)))
        && o.events == sub.events
  {
    var sub := RunSubsteps(step, step.substepsToRun, w, files);
    var m := Missing(step.outputs, sub.files);
    if m != [] {
      assert m[0] in m;
    }
  }

  /** Every event of a step run belongs to that step. */
  lemma {:induction false} SubstepEventsOfStep(step: StepView, names: seq<string>, w: World, files: set<string>)
    ensures forall e :: e in RunSubsteps(step, names, w, files).events ==> e.step == step.name
    decreases |names|
  {
    if names != [] && names[0] in step.substeps && (step.name, names[0]) !in w.fails {
      SubstepEventsOfStep(step, names[1..], w, files + Created(w, (step.name, names[0])));
    }
  }

  // ---------------------------------------------------------------------
  // Properties of a test case run

  /** After a failing step nothing more runs: steps scheduled after it do
      not change the outcome. */
  lemma {:induction false} FailureStopsRun(steps: map<string, StepView>, names: seq<string>, more: seq<string>,
                                           w: World, files: set<string>)
    requires RunStepsSpec(steps, names, w, files).failure.Some?
    ensures RunStepsSpec(steps, names + more, w, files) == RunStepsSpec(steps, names, w, files)
    decreases |names|
  {
    assert (names + more)[0] == names[0];
    assert (names + more)[1..] == names[1..] + more;
    if names[0] in steps {
      if steps[names[0]].cached {
        FailureStopsRun(steps, names[1..], more, w, files);
      } else {
        var o := RunStepSpec(Prepared(steps[names[0]], w), w, files);
        if o.failure.None? {
          FailureStopsRun(steps, names[1..], more, w, o.files);
        }
      }
    }
  }

  /** A step that preparation changed runs the substeps preparation left
      it, in that order, each dispatched with the resources fitted to it. */
  lemma PreparedSubstepsRun(steps: map<string, StepView>, h: string, rest: seq<string>, w: World, files: set<string>)
    requires NamesMatch(steps) && h in steps && !steps[h].cached && h in w.prepared
    requires RunStepSpec(Prepared(steps[h], w), w, files).failure.None?
    ensures var o := RunStepsSpec(steps, [h] + rest, w, files);
      var p := w.prepared[h];
      |p.substepsToRun| <= |o.events|
      && forall i :: 0 <= i < |p.substepsToRun| ==>
        p.substepsToRun[i] in p.substeps
        && o.events[i] == Dispatch(Prepared(steps[h], w), p.substepsToRun[i], p.substeps[p.substepsToRun[i]])
  {
    var step := Prepared(steps[h], w);
    assert step.substeps == w.prepared[h].substeps && step.substepsToRun == w.prepared[h].substepsToRun;
    RunStepsCons(steps, h, rest, w, files);
    var r := RunStepSpec(step, w, files);
    var sub := RunSubsteps(step, step.substepsToRun, w, files);
    assert r.events == sub.events;
    SubstepsInOrder(step, step.substepsToRun, w, files);
    var o := RunStepsSpec(steps, [h] + rest, w, files);
    assert o.events == r.events + RunStepsSpec(steps, rest, w, r.files).events;
  }

  /** Unfolds the step loop at a known first step. */
  lemma RunStepsCons(steps: map<string, StepView>, h: string, rest: seq<string>, w: World, files: set<string>)
    ensures RunStepsSpec(steps, [h] + rest, w, files) ==
      if h !in steps then Outcome([], files, Some(UnknownStep(h)))
      else if steps[h].cached then RunStepsSpec(steps, rest, w, files)
      else
        var o := RunStepSpec(Prepared(steps[h], w), w, files);
        if o.failure.Some? then o else Prefixed(o.events, RunStepsSpec(steps, rest, w, o.files))
  {
    assert ([h] + rest)[0] == h;
    assert ([h] + rest)[1..] == rest;
  }

  /** Running two lists of steps one after the other is running the first
      and then, if it succeeded, the second from where the first left off. */
  lemma {:induction false} RunStepsAppend(steps: map<string, StepView>, names: seq<string>, more: seq<string>,
                                          w: World, files: set<string>)
    requires RunStepsSpec(steps, names, w, files).failure.None?
    ensures var first := RunStepsSpec(steps, names, w, files);
      RunStepsSpec(steps, names + more, w, files) == Prefixed(first.events, RunStepsSpec(steps, more, w, first.files))
    decreases |names|
  {
    if names == [] {
      assert names + more == more;
    } else {
      var h, t := names[0], names[1..];
      assert names == [h] + t;
      assert names + more == [h] + (t + more);
      RunStepsCons(steps, h, t, w, files);
      RunStepsCons(steps, h, t + more, w, files);
      if steps[h].cached {
        RunStepsAppend(steps, t, more, w, files);
      } else {
        var o := RunStepSpec(Prepared(steps[h], w), w, files);
        RunStepsAppend(steps, t, more, w, o.files);
        PrefixedTwice(o.events, RunStepsSpec(steps, t, w, o.files), RunStepsSpec(steps, t + more, w, o.files),
                      RunStepsSpec(steps, more, w, RunStepsSpec(steps, t, w, o.files).files));
      }
    }
  }

  lemma PrefixedTwice(pre: seq<Event>, first: Outcome, both: Outcome, second: Outcome)
    requires both == Prefixed(first.events, second)
    ensures Prefixed(pre, both) == Prefixed(Prefixed(pre, first).events, second)
  {
    assert pre + (first.events + second.events) == (pre + first.events) + second.events;
  }

  /** No event of a step run mentions a step other than the scheduled,
      uncached ones. */
  lemma {:induction false} RunStepsTouches(steps: map<string, StepView>, names: seq<string>, w: World, files: set<string>)
    requires NamesMatch(steps)
    ensures forall e :: e in RunStepsSpec(steps, names, w, files).events ==>
      e.step in names && e.step in steps && !steps[e.step].cached
    decreases |names|
  {
    if names != [] && names[0] in steps {
      if steps[names[0]].cached {
        RunStepsTouches(steps, names[1..], w, files);
      } else {
        var step := Prepared(steps[names[0]], w);
        var o := RunStepSpec(step, w, files);
        SubstepEventsOfStep(step, step.substepsToRun, w, files);
        assert forall e :: e in o.events ==> e.step == names[0];
        if o.failure.None? {
          RunStepsTouches(steps, names[1..], w, o.files);
        }
      }
    }
  }

  lemma {:induction false} PrepareTouches(steps: map<string, StepView>, names: seq<string>, w: World)
    ensures forall e :: e in PrepareSpec(steps, names, w).0 ==>
      e.step in names && e.step in steps && !steps[e.step].cached
    decreases |names|
  {
    if names != [] && names[0] in steps && (steps[names[0]].cached || names[0] !in w.unfit) {
      PrepareTouches(steps, names[1..], w);
    }
  }

  /** A cached step is neither set up nor run. */
  lemma CachedStepNeverRuns(steps: map<string, StepView>, names: seq<string>, w: World, cached: string)
    requires NamesMatch(steps)
    requires cached in steps && steps[cached].cached
    ensures forall e :: e in CaseRunSpec(steps, names, w).events ==> e.step != cached
  {
    PrepareTouches(steps, names, w);
    if PrepareSpec(steps, names, w).1.None? {
      RunStepsTouches(steps, names, w, w.files);
    }
  }
}
