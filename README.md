# compass test-case orchestration, modelled in Dafny

compass sets up and runs MPAS test cases. A test case holds named steps.
A step holds substeps, and each substep has fixed resource needs. This
project models the part that decides what runs, in what order, and what
counts as a failure:

- `compass run`: choose a suite, test case, step or substep from the work
  directory, select the steps of each test case, run every case of a suite
  and tally the failures and runtimes (`compass/run/serial.py`).
- A test case: its constructor, `add_step`, `prepare_steps_to_run`, `run`,
  the per-step input gate, substep dispatch and output gate of `_run_step`,
  and `check_validation` (`compass/testcase.py`).
- The substep resource record and its partial update
  (`compass/substep.py`).
- The model launcher: the `run_model` command line, `partition`, and the
  METIS graph file written by `make_graph_file` (`compass/model.py`).
- The iterative SSH adjustment step, which expands an iteration count into
  a chain of pre-model, model and post-model substeps whose files feed one
  another (`compass/ocean/iceshelf/ssh_adjustment.py`).
- Two forward steps whose time steps are resolutions turned into
  `HH:MM:SS` through `gmtime`: the cosine bell's and ISOMIP+'s.

Modules, one per file:

| module | file | models |
|---|---|---|
| `Outcomes` | outcomes.dfy | `Option` and `Result` |
| `Text` | text.dfy | the Python string operations the core uses: `str(n)`, `{:02d}`, `split(sep)`, `split()`, `join`, `replace`, `os.path.basename`, `splitext`, `os.path.join` |
| `Clock` | clock.dfy | `strftime('%H:%M:%S', gmtime(t))`, Python's half-even `round`, the minutes/seconds split |
| `StepSetup` | step_setup.dfy | what a step declares (package files, input links, runtime namelist updates) and `configparser.getint` |
| `Substeps` | substep.dfy | compass/substep.py |
| `TestCases` | testcase.dfy | compass/testcase.py |
| `Serial` | serial.dfy | compass/run/serial.py |
| `Model` | model.dfy | compass/model.py |
| `SshAdjustment` | ssh_adjustment.dfy | compass/ocean/iceshelf/ssh_adjustment.py |
| `CosineBell` | cosine_bell.dfy | compass/ocean/tests/global_convergence/cosine_bell/forward.py |
| `IsomipPlus` | isomip_plus.dfy | compass/ocean/tests/isomip_plus/forward.py |

How the outside world is represented:

- **Files:** the files on disk are a set of paths.
- **Failures and effects:** a `World` value says which substeps raise when
  dispatched, which files each substep creates, which steps' runtime
  setup or resource fitting raises, and, for each step that preparation
  changes, the substeps (with their fitted resources) and the list of
  substeps to run that it leaves in the step.
- **Events:** everything a run does outside the model is an `Event` in a
  trace: runtime setup, resource fitting, a command with its resources, or
  an in-process `run()`.
- **Cases in a suite:** each case's configuration, its `validate` and its
  elapsed time come with it as a `CaseEnv` value.
- **Objects whose fields change:** test cases, substeps, the SSH
  adjustment step and the two forward steps are classes, and their methods
  are proved against specification functions. Inside `TestCases` a step is
  the value `StepView`: the part of the step object that the test case
  reads.

## Model

| member | source | states |
|---|---|---|
| Serial.ConfigSteps | compass/run/serial.py:344-346 | the `steps_to_run` option, with commas counted as white space, gives non-empty names without white space |
| Serial.ConfigStepsCommaList | compass/run/serial.py:344-346 | a comma-separated option reads back as exactly the names it lists |
| Serial.FirstUnknown | compass/run/serial.py:348-352 | the first name not among the known ones, and none exactly when every name is known |
| Serial.Without | compass/run/serial.py:362-363 | the names kept are exactly the requested ones that are not excluded, each kept name as many times as it was requested |
| Serial.WithoutIsSubsequence | compass/run/serial.py:362-363 | removing the excluded names keeps the request's order |
| Serial.UpdateStepsToRun | compass/run/serial.py:343-365 | the first unknown requested name raises, before any excluded name is checked; then the first unknown excluded name raises; otherwise the result is `Without` of the request and the excluded names (the request unchanged when there are none), every one a known step |
| Serial.SelectionKeepsOrder | compass/run/serial.py:362-365 | the selected steps are a subsequence of the request |
| Serial.Verdict | compass/run/serial.py:152-191 | a validation dictionary without one of its two keys raises; otherwise the case passes exactly when run and validate went through and no comparison reported `False` (`None` does not count) |
| Serial.Finish | compass/run/serial.py:131-199 | a failed run is not validated and never passes; a successful run leaves `validate`'s dictionary on the case; the result is named by the case path with `/` turned into `_` |
| Serial.RunCase | compass/run/serial.py:122-191 | a bad step selection ends the suite with the case unchanged; otherwise the case keeps the selected steps, its path, steps and environment, and its result is named by its path |
| Serial.Collect | compass/run/serial.py:91-199 | the case loop keeps one state per case, and gives one result per case unless an exception escapes |
| Serial.CountFailed | compass/run/serial.py:183-191 | the failure count is at most the number of cases, and zero exactly when every case passed |
| Serial.CountFailedAppend | compass/run/serial.py:183-191 | each failed case adds one to `failures` and each passing case adds nothing |
| Serial.StripPickleSuffix | compass/run/serial.py:56-59 | the suite file probed is the name with `.pickle` added only when it does not already end with it |
| Serial.RunTestsSpec | compass/run/serial.py:16-225 | one state per case; a suite file that is missing raises `NotSetUp` with every case unchanged; an empty suite raises; a report has one result per case and exit code 0 or 1 |
| Serial.FinishCase | compass/run/serial.py:131-191 | running `validate` and reading the dictionary on the test case object does what `Finish` says |
| Serial.RunOneCase | compass/run/serial.py:122-191 | one pass of the loop selects the case's steps, runs it and finishes it, as `RunCase` says |
| Serial.CaseLoop | compass/run/serial.py:86-199 | the loop over the suite's cases leaves every case in the state, and returns the results and failure count, that `Collect` and `CountFailed` say |
| Serial.RunTests | compass/run/serial.py:16-225 | a suite that was not set up, or an empty suite, raises before any case runs; otherwise the cases run in order and the report and exit code are those of the specification |
| Serial.FailedCasesDoNotStop | compass/run/serial.py:131-150 | an exception inside `run()` or `validate()` only fails its case: every case is visited and reported in order |
| Serial.EscapeEndsSuite | compass/run/serial.py:122-156 | an exception outside the try blocks ends the suite at that case: earlier cases are reported and later cases are left untouched |
| Serial.ExitStatus | compass/run/serial.py:217-225 | every case is reported, `failures` counts the failed ones, and the exit code is 1 exactly when some case failed and 0 exactly when all passed |
| Serial.RuntimeSplit | compass/run/serial.py:195-197 | seconds stay below 60, minutes and seconds make up `round(t)`, and that is within half a second of `t` |
| Serial.PickleFiles | compass/run/serial.py:330 | `glob('*.pickle')` finds exactly the listed names that end in `.pickle` and do not start with a dot |
| Serial.ChooseEntry | compass/run/serial.py:316-340 | an error only when no suite is named and neither `test_case.pickle` nor `step.pickle` exists; a substep run only for `step.pickle` with `--substep`, on that substep; a globbed suite only when exactly one pickle file matches |
| Serial.QuietHidesSubsteps | compass/run/serial.py:316-317 | with `--quiet`, no suite or step run prints substep names |
| Serial.EntryPrecedence | compass/run/serial.py:318-328 | a named suite wins, then `test_case.pickle` (with `--steps`/`--no-steps`), then `step.pickle` (a substep exactly when `--substep` is given); only a test-case run gets step selections |
| Serial.EntryFromGlob | compass/run/serial.py:329-340 | with none of those, no pickle file raises `OSError` and more than one raises `ValueError`, each exactly then |
| Serial.GlobbedSuiteFileFound | compass/run/serial.py:330-334 | the one pickle found names the suite run, and that suite's file is the one found |
| Serial.PickleSuiteName | compass/run/serial.py:332 | `splitext(basename(f))[0]` of a globbed pickle is the file name without `.pickle`, and probing it again gives back the file |
| Clock.TimeOfDay | compass/ocean/tests/global_convergence/cosine_bell/forward.py:100 | `gmtime` gives hours, minutes and seconds in range whose total is the time of day |
| Clock.FormatHms | compass/ocean/tests/global_convergence/cosine_bell/forward.py:100 | `%H:%M:%S` is eight characters with colons at positions 2 and 5 |
| Clock.FormatHmsOf | compass/ocean/tests/global_convergence/cosine_bell/forward.py:100 | the text is the zero-padded hours, minutes and seconds |
| Clock.FormatHmsPeriodic | compass/ocean/tests/isomip_plus/forward.py:218-222 | times equal modulo one day format alike |
| Clock.HmsRoundTrip | compass/ocean/tests/global_convergence/cosine_bell/forward.py:96-100 | the formatted time reads back as the seconds modulo one day |
| Clock.RoundHalfEven | compass/run/serial.py:195 | `round` gives an integer within half a unit, and the even one on a tie |
| Clock.RoundHalfEvenUnique | compass/run/serial.py:195 | that integer is the only one with those properties |
| Clock.MinutesSeconds | compass/run/serial.py:196-197 | the split has seconds in `[0, 60)` and adds back up to the total |
| Clock.MinutesSecondsUnique | compass/run/serial.py:196-197 | the split is the only one with those properties |
| Clock.FormatRuntime | compass/run/serial.py:195-197 | the runtime text is minutes, a colon and two digits that read back as the minutes and seconds of `round(t)` |
| Text.ReplaceChar | compass/run/serial.py:96 | `replace` changes exactly the occurrences of one character |
| Text.ReplaceJoin | compass/run/serial.py:345-346 | turning commas into spaces in a comma-joined list gives the space-joined list |
| Text.WordsJoin | compass/run/serial.py:346 | `split()` of a space-joined list of words gives the words back |
| Text.SplitextPickle | compass/run/serial.py:332 | a plain `x.pickle` name is its own basename and its root is `x` |
| Text.PathJoin | compass/testcase.py:104-105 | `os.path.join` ends with its last part, restarts at an absolute part, and otherwise keeps the first |
| Text.PathJoinPlain | compass/testcase.py:104-105 | joining parts with no slashes at the seam puts one `/` between them |
| Text.PathJoinComponents | compass/testcase.py:104-105 | a path joined from three slash-free parts splits back into them |
| Text.Basename | compass/model.py:58 | the basename has no `/` and is the tail of the path after its last `/` |
| Text.JoinSplit | compass/model.py:61 | rejoining the words of `split(' ')` gives the launcher text back |
| Text.ParseIntDecimal | compass/model.py:62 | `'{}'.format(n)` reads back as `n` |
| Text.ParsePad2 | compass/ocean/iceshelf/ssh_adjustment.py:145 | `{:02d}` reads back as the number |
| Text.Pad2Injective | compass/ocean/iceshelf/ssh_adjustment.py:145 | different numbers give different `{:02d}` texts |
| StepSetup.GetInt | compass/ocean/tests/global_convergence/cosine_bell/forward.py:96 | `getint` raises for a missing section, a missing option and a non-integer value, each exactly then |
| StepSetup.GetIntAfterSet | compass/ocean/tests/global_convergence/cosine_bell/forward.py:96 | an integer written into the configuration reads back, and other options read as before |
| Substeps.Apply | compass/substep.py:135-146 | exactly the fields given a value take it, and every other field is unchanged |
| Substeps.ApplyNothing | compass/substep.py:135-146 | `set_resources()` with no arguments changes nothing |
| Substeps.ApplyIdempotent | compass/substep.py:135-146 | the same update twice is the same as once |
| Substeps.ApplyThen | compass/substep.py:135-146 | two updates in a row are one update where the later arguments win |
| Substeps.ApplyTotal | compass/substep.py:135-146 | an update naming every field forgets the old values |
| Substeps.Substep.constructor | compass/substep.py:47-95 | the name, the step and the resources given (defaults 1, 1, 1, 1, 1, `1G`), and no `args` |
| Substeps.Substep.Default | compass/substep.py:170-182 | the default substep is named `default` and runs its step |
| Substeps.Substep.SetResources | compass/substep.py:97-146 | the resources become `Apply` of the arguments; name, step and args are unchanged |
| Substeps.Substep.Run | compass/substep.py:157-162 | the base `run` does nothing; the default substep's `run` calls its step's `run` once |
| Substeps.DefaultSubstepRunsStep | compass/substep.py:182-189 | a new default substep has the default resources, and running it runs its step exactly once |
| Substeps.PlainSubstepResources | compass/substep.py:47-146 | a plain substep starts with the defaults, and a later update changes only the fields passed |
| TestCases.Missing | compass/testcase.py:269-272 | the missing files are exactly the listed names that do not exist, and there are no more of them than names listed |
| TestCases.MissingCounts | compass/testcase.py:269-272 | a missing name appears as many times as it is listed, an existing one not at all |
| TestCases.MissingInOrder | compass/testcase.py:269-272 | the missing files come in list order: they are a subsequence of the list |
| TestCases.MissingFiles | compass/testcase.py:269-272 | the loop collects the missing files as `Missing` says |
| TestCases.Dispatch | compass/testcase.py:296-314 | a substep with `args` runs that command; otherwise `compass run --substep <name>` when the step runs substeps as commands; otherwise in process. Commands carry the substep's resources |
| TestCases.RunStep | compass/testcase.py:249-325 | the input gate, the substeps in order up to the first that raises, then the output gate, as `RunStepSpec` says |
| TestCases.RunStepSpec | compass/testcase.py:249-325 | a step run only adds files; when it succeeds every declared output exists; when it fails, the error is one of the step's own: missing inputs, an unknown or raising substep, or missing outputs |
| TestCases.Prepared | compass/testcase.py:230-235 | a step that preparation changed runs with the substeps and substeps-to-run preparation gave it; its name, files, dispatch mode and cache flag stay |
| TestCases.PrepareOutcome | compass/testcase.py:221-236 | preparation succeeds only when every step to run is known; it fails only on an unknown step listed to run, or on a listed step whose setup or fitting raises |
| TestCases.RunStepsOutcome | compass/testcase.py:153-169 | the step loop only adds files, succeeds only when every listed step is known, never reports a setup failure, and an unknown-step error names a listed step that is not there |
| TestCases.CaseRunSpec | compass/testcase.py:138-169 | a run only adds files and succeeds only when every step to run is known; a setup failure leaves the files untouched |
| TestCases.RunSteps | compass/testcase.py:153-169 | the step loop runs the non-cached steps in order, each as preparation left it, and stops at the first failure, as `RunStepsSpec` says |
| TestCases.TestCase.constructor | compass/testcase.py:96-109 | the subdirectory defaults to the name, the path is core/group/subdir, and there are no steps, no steps to run and no validation |
| TestCases.TestCase.AddStep | compass/testcase.py:192-194 | the step is stored under its name and appended to the steps to run only when it runs by default; nothing else changes |
| TestCases.TestCase.PrepareStepsToRun | compass/testcase.py:221-236 | each non-cached step to run gets its runtime setup and then its resource fitting, in order |
| TestCases.TestCase.Run | compass/testcase.py:138-169 | preparation first, then the step loop over the prepared steps, as `CaseRunSpec` says |
| TestCases.TestCase.CheckValidation | compass/testcase.py:196-219 | the check with the corrected guard: it raises exactly when a comparison failed |
| TestCases.CheckValidationSpec | compass/testcase.py:196-219 | no dictionary means no error; a missing key raises `KeyError`; otherwise it raises exactly when a comparison reported `False` |
| TestCases.CheckValidationAsWritten | compass/testcase.py:201-219 | as written: no dictionary means no error, a missing key raises `KeyError`, and the comparison error is raised exactly when neither comparison reported `False` |
| TestCases.CheckValidationInverted | compass/testcase.py:207-219 | with both keys present, the check as written raises exactly when the intended check does not |
| TestCases.CheckValidationPassingRaises | compass/testcase.py:218-219 | two passing comparisons make the code as written raise |
| TestCases.PathComponents | compass/testcase.py:99-105 | the path splits into the core, the group and the subdirectory |
| TestCases.RunSubstepsFailures | compass/testcase.py:293-314 | running substeps only adds files, and fails only on an unknown or a raising substep |
| TestCases.InputGate | compass/testcase.py:269-278 | the step raises on its inputs exactly when one is missing, before any substep is dispatched, and its error lists `Missing` of the inputs |
| TestCases.SubstepsInOrder | compass/testcase.py:293-314 | when no substep raises, there is one dispatch per substep to run, in order |
| TestCases.FailingSubstepIsLast | compass/testcase.py:293-314 | the substep that raises is the last one dispatched |
| TestCases.OutputGate | compass/testcase.py:316-325 | a step that succeeds has all its outputs; after successful substeps, missing outputs raise and name exactly the missing ones |
| TestCases.SubstepEventsOfStep | compass/testcase.py:293-314 | every dispatch belongs to the step being run |
| TestCases.FailureStopsRun | compass/testcase.py:163-168 | once a step fails, the steps after it change nothing |
| TestCases.RunStepsCons | compass/testcase.py:153-168 | one turn of the step loop: an unknown step raises, a cached step is skipped, otherwise the step runs |
| TestCases.PreparedSubstepsRun | compass/testcase.py:293-305 | a step that preparation changed dispatches, in order, the substeps preparation left it, each with its fitted resources |
| TestCases.RunStepsAppend | compass/testcase.py:153-169 | when the first steps succeed, the later steps run from the files they left |
| TestCases.RunStepsTouches | compass/testcase.py:153-157 | the loop touches only steps that are listed to run, known and not cached |
| TestCases.PrepareTouches | compass/testcase.py:225-236 | preparation touches only steps that are listed to run, known and not cached |
| TestCases.CachedStepNeverRuns | compass/testcase.py:153-157 | a cached step is never prepared and never run |
| Model.Partition | compass/model.py:90-93 | the partitioner runs exactly when there is more than one core, on the graph file |
| Model.PartitionCount | compass/model.py:90-93 | the partitioner is asked for as many parts as there are cores |
| Model.LaunchArgsMeaning | compass/model.py:56-65 | the launcher words come first and rejoin to the configured launcher; then `-n <cores>`, `./<basename of model>`, `-n <namelist>` and `-s <streams>` |
| Model.LaunchArgs | compass/model.py:56-65 | the model executable is run as `./` and its base name with no `/`, and the command ends with `-n <namelist> -s <streams>` |
| Model.Preparation | compass/model.py:48-52 | the PIO update happens only with `update_pio` and comes first; partitioning happens only with `partition_graph` and more than one core |
| Model.RunModel | compass/model.py:7-67 | namelist and streams default to `namelist.<core>` and `streams.<core>` only when not given; preparation, `OMP_NUM_THREADS`, then the launch |
| Model.Weights | compass/model.py:121-127 | the intended check: no field gives no weights, a present field gives its values, and a missing field raises |
| Model.WeightGuardInverted | compass/model.py:121-124 | as written, naming any weight field raises: a `ValueError` if it is present, and the intended check would have accepted it |
| Model.WeightsAsWritten | compass/model.py:119-127 | as written: no field gives no weights, every named field raises, and the not-found error is raised only for a field that is present |
| Model.Trunc | compass/model.py:150 | `int(x)` rounds toward zero |
| Model.RowIds | compass/model.py:141-144 | every id written is at least 1 and one of the row's own entries |
| Model.RowEndsAreIds | compass/model.py:129-145 | the entries counted as edge ends are the ids written, one for one |
| Model.EdgeEndsAreListed | compass/model.py:129-145 | the edge ends counted are the neighbour ids listed in the file |
| Model.CellLines | compass/model.py:141-154 | one line per cell, in cell order |
| Model.CountEdgeEnds | compass/model.py:129-133 | the first loop counts the neighbours that are not -1 |
| Model.WriteRow | compass/model.py:142-144 | the inner loop writes each valid neighbour's 1-based id followed by a space |
| Model.WriteCellLine | compass/model.py:141-154 | one cell's line, ended by a newline |
| Model.WriteGraph | compass/model.py:137-154 | the second loop writes the header and then every cell's line, with the corrected integer header (`Header`, see Findings) |
| Model.MakeGraphFile | compass/model.py:96-154 | with the intended weight check, the error it raises or the whole graph file, with the corrected integer header (`Header`, see Findings) |
| Model.HeaderFields | compass/model.py:135-147 | the intended header reads as the cell count, the integer edge count and `010` when weighted |
| Model.Header | compass/model.py:135-139 | the corrected header holds only digits and spaces: the edge count is an integer |
| Model.HeaderAsWritten | compass/model.py:135-139 | as written, the header contains a decimal point |
| Model.HeaderAsWrittenNotInteger | compass/model.py:135-139 | as written, the header's edge count has a decimal point and is not an integer (Python prints it so below 2·10^16 edge ends) |
| Model.HeaderAsWrittenExample | compass/model.py:135-139 | two neighbouring cells give the header `2 1.0` as written, where `2 1` is meant |
| Model.GraphFileLines | compass/model.py:137-154 | the file is the header followed by exactly one line per cell |
| Model.CellLineWords | compass/model.py:146-154 | a cell line holds the truncated weight when weighted, then the neighbour ids |
| SshAdjustment.Plan | compass/ocean/iceshelf/ssh_adjustment.py:138-162 | exactly three substeps per iteration |
| SshAdjustment.PlanAt | compass/ocean/iceshelf/ssh_adjustment.py:138-162 | substeps `3i` to `3i+2` are iteration `i`'s pre-model, model and post-model substeps |
| SshAdjustment.ChainStep | compass/ocean/iceshelf/ssh_adjustment.py:139-144 | iteration `i`'s post-model substep writes the file iteration `i+1` reads |
| SshAdjustment.FilesChain | compass/ocean/iceshelf/ssh_adjustment.py:139-144 | the chain starts from `adjusting_init0.nc`, links each iteration to the next, and ends at `adjusted_init.nc` |
| SshAdjustment.NamesDistinct | compass/ocean/iceshelf/ssh_adjustment.py:139-145 | different iterations have different substep names and files |
| SshAdjustment.InFileIsNotFinal | compass/ocean/iceshelf/ssh_adjustment.py:141-144 | no intermediate initial condition is the final output |
| SshAdjustment.PostModelRun | compass/ocean/iceshelf/ssh_adjustment.py:256-329 | an unknown variable raises, and exactly then; otherwise the substep reads its inputs, writes the next file, and updates the layer thickness exactly for `ssh` |
| SshAdjustment.PostModelFeedsNext | compass/ocean/iceshelf/ssh_adjustment.py:141-162 | a post-model substep that runs writes the next iteration's input |
| SshAdjustment.SshAdjustmentStep.constructor | compass/ocean/iceshelf/ssh_adjustment.py:52-87 | no substeps; one task, thread and minimum task; `1GB`; the declared inputs, outputs, namelist options and stream replacements |
| SshAdjustment.SshAdjustmentStep.SetResources | compass/ocean/iceshelf/ssh_adjustment.py:116-123 | only the fields passed change |
| SshAdjustment.SshAdjustmentStep.RuntimeSetup | compass/ocean/iceshelf/ssh_adjustment.py:125-162 | the substeps added are the plan for the iteration count (none when it is not positive), made with the step's resources |
| SshAdjustment.TwoIterations | compass/ocean/iceshelf/ssh_adjustment.py:138-162 | two iterations give six substeps, the second starting from the first one's result |
| CosineBell.StepPlacement | compass/ocean/tests/global_convergence/cosine_bell/forward.py:30-32 | the step sits in `forward` under the mesh's directory |
| CosineBell.StepsDistinct | compass/ocean/tests/global_convergence/cosine_bell/forward.py:30-32 | different resolutions give different step names and directories |
| CosineBell.Dt | compass/ocean/tests/global_convergence/cosine_bell/forward.py:85-102 | fails exactly when `dt_per_km` cannot be read, with that error |
| CosineBell.DtMeaning | compass/ocean/tests/global_convergence/cosine_bell/forward.py:96-100 | the time step reads back as `dt_per_km * resolution` seconds modulo one day |
| CosineBell.Forward.constructor | compass/ocean/tests/global_convergence/cosine_bell/forward.py:18-51 | the name, subdirectory, namelist and streams files, inputs and output of the step |
| CosineBell.Forward.Setup | compass/ocean/tests/global_convergence/cosine_bell/forward.py:55-60 | `config_dt` is set to the time step, or the configuration error is returned with nothing changed |
| CosineBell.Forward.RuntimeSetup | compass/ocean/tests/global_convergence/cosine_bell/forward.py:62-73 | the model's tasks and minimum tasks come from `QU<res>_cores` and `QU<res>_min_cores`, read in that order |
| CosineBell.Forward.Run | compass/ocean/tests/global_convergence/cosine_bell/forward.py:75-83 | `config_dt` is rewritten in `namelist.ocean` at run time |
| CosineBell.SetupAndRunAgree | compass/ocean/tests/global_convergence/cosine_bell/forward.py:55-83 | with an unchanged configuration, setup and run write the same time step |
| IsomipPlus.TimeSteps | compass/ocean/tests/isomip_plus/forward.py:197-225 | the two options `config_dt` and `config_btr_dt` and no others |
| IsomipPlus.TimeStepsMeaning | compass/ocean/tests/isomip_plus/forward.py:212-225 | both are quoted and read back as `120 * res` and `5 * res` whole seconds within the day |
| IsomipPlus.TimeStepsAgree | compass/ocean/tests/isomip_plus/forward.py:218-222 | two resolutions give the same options exactly when both steps agree to the whole second within the day |
| IsomipPlus.ForwardOptions | compass/ocean/tests/isomip_plus/forward.py:68-73 | the time steps, plus `config_run_duration` exactly when a run duration is given |
| IsomipPlus.ForcingInputOnlyWhenTimeVarying | compass/ocean/tests/isomip_plus/forward.py:83-102 | the land-ice forcing input is linked exactly when the forcing varies in time, ahead of the four common inputs |
| IsomipPlus.ExtraSubsteps | compass/ocean/tests/isomip_plus/forward.py:106-109 | a plot substep exactly for `performance`, the evaporation update exactly for `simulation`, never both |
| IsomipPlus.Forward.constructor | compass/ocean/tests/isomip_plus/forward.py:56-112 | the options, inputs, extra substeps, outputs, namelist and streams files, each as the functions above say |
| IsomipPlus.Forward.RuntimeSetup | compass/ocean/tests/isomip_plus/forward.py:114-124 | the model's tasks, minimum tasks and threads from `forward_cores`, `forward_min_cores` and `forward_threads`, read in that order; the first missing option is the error |

## Left out

- Logging, `os.chdir`, ANSI colours, `print_substeps` output and the log-file setup are I/O and are not modelled.
- `pickle.load`, config-file parsing, `common_setup` and `check_parallel_system` are I/O. A suite is given as its cases, and a case's configuration as its `steps_to_run` option.
- `time.time()` is a clock. Each case's elapsed time and the suite's are inputs.
- `run_step` and `run_substep` (compass/run/serial.py:228-289) are not modelled beyond `main` choosing them. They load a pickle and call code that is not shown.
- `_create_step_futures`, `_launch_substeps` and `_print_to_stdout` (compass/testcase.py:238-410) are left out. They are Parsl scheduling and unfinished code.
- `get_available_cores_and_nodes`, `constrain_resources`, `run_command`, `add_model_substeps`, `ModelSubstep`, `ModelSetupSubstep` and `set_model_resources` are not shown. Runtime setup and resource fitting are events that may fail per step (`World.unfit`); what they leave in a step is given by `World.prepared`, and the run uses it. The model records one fitting event per step, where the code calls `constrain_resources` once per substep. A command is an event carrying the substep's resources.
- TestCases.Prepared: `SshAdjustment.SshAdjustmentStep.RuntimeSetup` is not connected to it. The names of the pre-model and model substeps come from `ModelSetupSubstep` and `ModelSubstep`, which are not shown, so the plan is not turned into a `Preparation`.
- The forward steps record the arguments of each `set_model_resources` call as a `ResourceUpdate`. The update's effect on the model substep is not modelled.
- compass/step.py is not part of this model. `add_input_file`, `add_output_file`, `add_namelist_file`, `add_streams_file` and `add_substep` are taken to append, and `add_namelist_options` to merge.
- The numerics of `PostModelSubstep.run` are left out, as are the body of `PreModelSubstep.run` and the plot and evaporation substeps. They are NetCDF and floating-point array work. `PostModelRun` keeps the variable check and the files read and written.
- The names and resources of model substeps beyond the arguments `runtime_setup` passes are not modelled: `ModelSubstep` is not shown.
- Floating point: resolutions are reals, and `gmtime` of a float is modelled as the floor of an exact real. The rounding of `2.*60*res` in binary floating point is not modelled.
- `int()` in `getint` also accepts surrounding white space, `+`, and `_` between digits. The model accepts only an optional `-` followed by decimal digits.
- `run_tests` keeps per-case runtimes and verdicts in dictionaries keyed by test name. A name used twice would collapse there; the model reports every case in order.
- Serial.RunTests: requires the suite's test-case objects to be distinct. A suite listing one object twice would see its own earlier changes, and the model does not capture that aliasing.
- Model.MakeGraphFile: requires a well-formed mesh: one edge count and one neighbour row per cell, and rows long enough. NetCDF guarantees this shape.
- Model.MakeGraphFile: the mesh's `variables` hold only per-cell variables, while `weight_field in ds` (compass/model.py:121) looks at every variable in the file. A weight field of another dimension is therefore reported `WeightFieldNotFound` by the model, where the intended code would find and read it.
- Model.HalfAsFloat: writes `n.0` or `n.5`. Python prints a float of 10^16 or more in exponent form (`1e+16`), so the text is exact only below 2·10^16 edge ends; above that the header as written is still not an integer, but has no decimal point.
- Model.RunModel: returns the commands in order as if each succeeds. `check_call` raises when the partitioner fails (compass/model.py:93), and then the launch never happens; the model does not represent that failure.
- Model.CellLineWords: weights are written through `int()`. The float `repr` Python would print for a non-integral weight is not modelled.
- SshAdjustment.SshAdjustmentStep.RuntimeSetup: takes the iteration count as its argument rather than reading it with `getint`. The read is modelled by `StepSetup.GetInt`.
- The `Step` defaults (a subdirectory equal to the step name when none is given) are not modelled: compass/step.py is not shown.
- The cosine bell and ISOMIP+ constructors' call to `add_model_substeps` is not modelled, because the function is not shown.

## Findings

| source | as written | input that shows it | evidently intended | confidence | as-written member | corrected member |
|---|---|---|---|---|---|---|
| compass/testcase.py:207-219 | `check_validation` raises `ValueError('Comparison failed')` under `if both_pass`, so it raises when both comparisons passed and stays silent when one failed | `validation = {'internal_pass': True, 'baseline_pass': True}` raises; `{'internal_pass': False, ...}` does not (`TestCases.CheckValidationPassingRaises`, `TestCases.CheckValidationInverted`) | raise when a comparison failed (`if not both_pass`) | not executed | TestCases.CheckValidationAsWritten | TestCases.CheckValidationSpec |
| compass/model.py:121-124 | the weight check raises `ValueError('... not found ...')` when the field IS in the dataset; when it is absent, `ds[weight_field]` raises `KeyError`, so every weight field fails | a mesh with variable `w` and `weight_field='w'` raises (`Model.WeightGuardInverted`) | raise when the field is not in the dataset (`not in`) | not executed | Model.WeightsAsWritten | Model.Weights |
| compass/model.py:135 | `nEdges = nEdges/2` is true division, so the header's edge count is a float such as `1.0`, which violates the METIS graph format's integer edge-count field | two cells that neighbour each other give the header `2 1.0` (`Model.HeaderAsWrittenExample`, `Model.HeaderAsWrittenNotInteger`) | integer division `nEdges // 2`, header `2 1` | not executed | Model.HeaderAsWritten | Model.Header |
