/** The forward-run step of the ISOMIP+ ice-shelf test cases
    (compass/ocean/tests/isomip_plus/forward.py): time steps proportional
    to the resolution, and a constructor whose namelist options, inputs and
    extra substeps depend on the run it is made for. */
module IsomipPlus {
  import opened Outcomes
  import opened Text
  import opened Clock
  import opened Substeps
  import opened StepSetup

  const Package: string := "compass.ocean.tests.isomip_plus"

  /** `"'{}'".format(s)`: a namelist string value. */
  function Quoted(s: string): string {
    "'" + s + "'"
  }

  /** The seconds a time step of `x` seconds stands for once it has gone
      through `gmtime`: fractional seconds dropped, whole days wrapped. */
  function WallSeconds(x: real): int {
    GmtimeSeconds(x) % SecondsPerDay
  }

  /** `get_time_steps`: a baroclinic step of 120 s and a barotropic step of
      5 s per km of resolution, as quoted `HH:MM:SS` strings. */
  function TimeSteps(resolution: real): (options: map<string, string>)
    ensures options.Keys == {"config_dt", "config_btr_dt"}
  {
    var dt := 2.0 * 60.0 * resolution;
    var btrDt := 5.0 * resolution;
    map["config_dt" := Quoted(FormatHms(GmtimeSeconds(dt))),
        "config_btr_dt" := Quoted(FormatHms(GmtimeSeconds(btrDt)))]
  }

  /** Both time steps are quoted and read back, inside the quotes, as the
      whole seconds they stand for within a day. */
  lemma TimeStepsMeaning(resolution: real)
    ensures var o := TimeSteps(resolution);
      && |o["config_dt"]| == 10 && o["config_dt"][0] == '\'' && o["config_dt"][9] == '\''
      && ParseHms(o["config_dt"][1..9]) == Some(WallSeconds(120.0 * resolution))
      && |o["config_btr_dt"]| == 10 && o["config_btr_dt"][0] == '\'' && o["config_btr_dt"][9] == '\''
      && ParseHms(o["config_btr_dt"][1..9]) == Some(WallSeconds(5.0 * resolution))
  {
    var dt, btrDt := GmtimeSeconds(2.0 * 60.0 * resolution), GmtimeSeconds(5.0 * resolution);
    HmsRoundTrip(dt);
    HmsRoundTrip(btrDt);
    assert Quoted(FormatHms(dt))[1..9] == FormatHms(dt);
    assert Quoted(FormatHms(btrDt))[1..9] == FormatHms(btrDt);
  }

  /** Resolutions whose time steps agree to the whole second within the
      day get the same options, and only those: the fraction is dropped. */
  lemma TimeStepsAgree(a: real, b: real)
    ensures TimeSteps(a) == TimeSteps(b) <==>
      WallSeconds(120.0 * a) == WallSeconds(120.0 * b) && WallSeconds(5.0 * a) == WallSeconds(5.0 * b)
  {
    TimeStepsMeaning(a);
    TimeStepsMeaning(b);
    var dta, dtb := GmtimeSeconds(120.0 * a), GmtimeSeconds(120.0 * b);
    var ba, bb := GmtimeSeconds(5.0 * a), GmtimeSeconds(5.0 * b);
    if WallSeconds(120.0 * a) == WallSeconds(120.0 * b) && WallSeconds(5.0 * a) == WallSeconds(5.0 * b) {
      FormatHmsPeriodic(dta, dtb);
      FormatHmsPeriodic(ba, bb);
    }
  }

  /** The namelist options the constructor adds: the time steps, and the
      run duration only when one is given. */
  function ForwardOptions(resolution: real, runDuration: Option<string>): (options: map<string, string>)
    ensures ("config_run_duration" in options) <==> runDuration.Some?
    ensures runDuration.Some? ==> options["config_run_duration"] == runDuration.value
    ensures options.Keys - {"config_run_duration"} == TimeSteps(resolution).Keys
    ensures forall k :: k in TimeSteps(resolution) ==> options[k] == TimeSteps(resolution)[k]
  {
    var options := TimeSteps(resolution);
    if runDuration.Some? then options["config_run_duration" := runDuration.value] else options
  }

  const ForcingInput: InputLink := InputLink("land_ice_forcing.nc", "../initial_state/land_ice_forcing.nc")

  /** The inputs every forward step links in: the adjusted initial
      condition, the culled graph partition and the forcing data, the last
      under a second name as well. */
  const CommonInputs: seq<InputLink> :=
    [InputLink("init.nc", "../ssh_adjustment/adjusted_init.nc"),
     InputLink("graph.info", "../initial_state/culled_graph.info"),
     InputLink("forcing_data_init.nc", "../initial_state/init_mode_forcing_data.nc"),
     InputLink("forcing_data.nc", "forcing_data_init.nc")]

  /** The inputs of a forward step. */
  function ForwardInputs(timeVaryingForcing: bool): seq<InputLink> {
    if timeVaryingForcing then [ForcingInput] + CommonInputs else CommonInputs
  }

  /** The land-ice forcing file is linked in, ahead of the common inputs,
      exactly when the forcing varies in time. */
  lemma ForcingInputOnlyWhenTimeVarying(timeVaryingForcing: bool)
    ensures (ForcingInput in ForwardInputs(timeVaryingForcing)) <==> timeVaryingForcing
    ensures var inputs := ForwardInputs(timeVaryingForcing);
      |inputs| >= 4 && inputs[|inputs| - 4..] == CommonInputs
  {
    var inputs := ForwardInputs(timeVaryingForcing);
    if timeVaryingForcing {
      assert inputs[0] == ForcingInput;
    } else {
      assert forall k :: 0 <= k < |CommonInputs| ==> CommonInputs[k].filename != ForcingInput.filename;
    }
  }

  /** The substeps appended after the model's own: a plot substep for the
      `performance` run, the evaporation update for the `simulation` run,
      never both. */
  function ExtraSubsteps(name: string): (substeps: seq<string>)
    ensures ("plot" in substeps) <==> name == "performance"
    ensures ("update_evap" in substeps) <==> name == "simulation"
    ensures |substeps| <= 1
  {
    (if name == "performance" then ["plot"] else [])
    + (if name == "simulation" then ["update_evap"] else [])
  }

  /** The namelist files of a forward step, with the time-varying forcing
      one last when that forcing is on. */
  function ForwardNamelists(timeVaryingForcing: bool): seq<PackageFile> {
    [Plain(Package, "namelist.forward_and_ssh_adjust"), Plain(Package, "namelist.forward")]
    + (if timeVaryingForcing then [Plain(Package, "namelist.time_varying_forcing")] else [])
  }

  /** The streams files of a forward step: the output interval of the
      template is the run duration, given or not. */
  function ForwardStreams(runDuration: Option<string>, timeVaryingForcing: bool): seq<PackageFile> {
    [Plain("compass.ocean.streams", "streams.output"),
     Plain("compass.ocean.streams", "streams.land_ice_fluxes"),
     PackageFile(Package, "streams.forward.template", map["output_interval" := runDuration])]
    + (if timeVaryingForcing then [Plain(Package, "streams.time_varying_forcing")] else [])
  }

  class Forward {
    const resolution: real
    const experiment: string
    const name: string
    /** The directory given, or `None` for the step's default (its name). */
    const subdir: Option<string>
    var namelistFiles: seq<PackageFile>
    var streamsFiles: seq<PackageFile>
    var namelistOptions: map<string, string>
    var inputs: seq<InputLink>
    /** The substeps added after those of the model itself. */
    var extraSubsteps: seq<string>
    var outputs: seq<string>
    /** The arguments of each `set_model_resources` call on the model substep. */
    var modelResourceUpdates: seq<ResourceUpdate>

    constructor (resolution: real, experiment: string, name: string := "forward", subdir: Option<string> := None,
                 runDuration: Option<string> := None, timeVaryingForcing: bool := false)
      ensures this.resolution == resolution && this.experiment == experiment
      ensures this.name == name && this.subdir == subdir
      ensures namelistOptions == ForwardOptions(resolution, runDuration)
      ensures inputs == ForwardInputs(timeVaryingForcing)
      ensures extraSubsteps == ExtraSubsteps(name)
      ensures outputs == ["output.nc", "land_ice_fluxes.nc"]
      ensures namelistFiles == ForwardNamelists(timeVaryingForcing)
      ensures streamsFiles == ForwardStreams(runDuration, timeVaryingForcing)
      ensures modelResourceUpdates == []
    {
      this.resolution := resolution;
      this.experiment := experiment;
      this.name := name;
      this.subdir := subdir;
      namelistFiles := ForwardNamelists(timeVaryingForcing);
      var options := TimeSteps(resolution);
      if runDuration.Some? {
        options := options["config_run_duration" := runDuration.value];
      }
      namelistOptions := options;
      streamsFiles := ForwardStreams(runDuration, timeVaryingForcing);
      var links: seq<InputLink> := [];
      if timeVaryingForcing {
        links := links + [ForcingInput];
      }
      links := links + CommonInputs;
      assert links == ForwardInputs(timeVaryingForcing) by {
        assert [] + CommonInputs == CommonInputs;
      }
      inputs := links;
      var extra: seq<string> := [];
      if name == "performance" {
        extra := extra + ["plot"];
      }
      if name == "simulation" {
        extra := extra + ["update_evap"];
      }
      extraSubsteps := extra;
      outputs := ["output.nc", "land_ice_fluxes.nc"];
      modelResourceUpdates := [];
    }

    /** `runtime_setup`: the model substep's tasks, minimum tasks and
        threads from `forward_cores`, `forward_min_cores` and
        `forward_threads` of the `isomip_plus` section, read in that order. */
    method RuntimeSetup(c: Options) returns (err: Option<ConfigError>)
      modifies this
      ensures var cores := GetInt(c, "isomip_plus", "forward_cores");
        var minCores := GetInt(c, "isomip_plus", "forward_min_cores");
        var threads := GetInt(c, "isomip_plus", "forward_threads");
        && (cores.Err? ==> err == Some(cores.error))
        && (cores.Ok? && minCores.Err? ==> err == Some(minCores.error))
        && (cores.Ok? && minCores.Ok? && threads.Err? ==> err == Some(threads.error))
        && (err.Some? ==> modelResourceUpdates == old(modelResourceUpdates))
        && (cores.Ok? && minCores.Ok? && threads.Ok? ==>
              err == None
              && modelResourceUpdates == old(modelResourceUpdates)
                 + [NoUpdate.(ntasks := Some(cores.value), minTasks := Some(minCores.value),
                              openmpThreads := Some(threads.value))])
      ensures namelistOptions == old(namelistOptions) && inputs == old(inputs) && outputs == old(outputs)
      ensures extraSubsteps == old(extraSubsteps)
      ensures namelistFiles == old(namelistFiles) && streamsFiles == old(streamsFiles)
    {
      var cores := GetInt(c, "isomip_plus", "forward_cores");
      if cores.Err? {
        return Some(cores.error);
      }
      var minCores := GetInt(c, "isomip_plus", "forward_min_cores");
      if minCores.Err? {
        return Some(minCores.error);
      }
      var threads := GetInt(c, "isomip_plus", "forward_threads");
      if threads.Err? {
        return Some(threads.error);
      }
      modelResourceUpdates := modelResourceUpdates
        + [NoUpdate.(ntasks := Some(cores.value), minTasks := Some(minCores.value), openmpThreads := Some(threads.value))];
      err := None;
    }
  }
}
