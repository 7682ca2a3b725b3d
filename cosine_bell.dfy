/** The forward-run step of the cosine-bell convergence test
    (compass/ocean/tests/global_convergence/cosine_bell/forward.py): one
    step per mesh resolution, whose time step is proportional to the
    resolution and whose model resources come from the configuration. */
module CosineBell {
  import opened Outcomes
  import opened Text
  import opened Clock
  import opened Substeps
  import opened StepSetup

  const Section: string := "cosine_bell"

  /** `f'QU{resolution}'`: the mesh's name. */
  function MeshName(resolution: int): string {
    "QU" + IntToDecimal(resolution)
  }

  function StepName(resolution: int): string {
    MeshName(resolution) + "_forward"
  }

  function StepSubdir(resolution: int): string {
    MeshName(resolution) + "/forward"
  }

  /** The step sits in a `forward` directory under its mesh's directory. */
  lemma StepPlacement(resolution: int)
    ensures SplitOn(StepSubdir(resolution), '/') == [MeshName(resolution), "forward"]
  {
    var d := IntToDecimal(resolution);
    assert '/' !in d by {
      if resolution < 0 {
        assert d == "-" + NatToDecimal(-resolution);
      }
    }
    assert StepSubdir(resolution) == MeshName(resolution) + ['/'] + "forward";
    SplitOnPiece(MeshName(resolution), "forward", '/');
    SplitOnWithout("forward", '/');
  }

  /** Different resolutions give different step names and directories. */
  lemma StepsDistinct(a: int, b: int)
    requires a != b
    ensures StepName(a) != StepName(b) && StepSubdir(a) != StepSubdir(b)
  {
    ParseIntDecimal(a);
    ParseIntDecimal(b);
    AffixCancel("QU", IntToDecimal(a), IntToDecimal(b), "_forward");
    AffixCancel("QU", IntToDecimal(a), IntToDecimal(b), "/forward");
  }

  /** `get_dt`: `dt_per_km` seconds per km of resolution, formatted as
      `HH:MM:SS` through `gmtime`. */
  function Dt(c: Options, resolution: int): (r: Result<string, ConfigError>)
    ensures r.Err? <==> GetInt(c, Section, "dt_per_km").Err?
    ensures r.Err? ==> r.error == GetInt(c, Section, "dt_per_km").error
  {
    match GetInt(c, Section, "dt_per_km")
    case Ok(dtPerKm) => Ok(FormatHms(dtPerKm * resolution))
    case Err(e) => Err(e)
  }

  /** The time step reads back as `dt_per_km * resolution` seconds, reduced
      modulo one day: a step of 24 hours or more wraps around. */
  lemma DtMeaning(c: Options, resolution: int)
    requires GetInt(c, Section, "dt_per_km").Ok?
    ensures Dt(c, resolution).Ok?
    ensures ParseHms(Dt(c, resolution).value)
         == Some((GetInt(c, Section, "dt_per_km").value * resolution) % SecondsPerDay)
  {
    HmsRoundTrip(GetInt(c, Section, "dt_per_km").value * resolution);
  }

  class Forward {
    const resolution: int
    const name: string
    const subdir: string
    var namelistFiles: seq<PackageFile>
    var streamsFiles: seq<PackageFile>
    var inputs: seq<InputLink>
    var outputs: seq<string>
    var namelistOptions: map<string, string>
    var runtimeNamelistUpdates: seq<NamelistUpdate>
    /** The arguments of each `set_model_resources` call on the model substep. */
    var modelResourceUpdates: seq<ResourceUpdate>

    /** The step for one resolution: its namelist and streams files, the
        initial state and graph partition linked in from the sibling
        `init` and `mesh` steps, and its output. */
    constructor (resolution: int)
      ensures this.resolution == resolution
      ensures name == StepName(resolution) && subdir == StepSubdir(resolution)
      ensures streamsFiles == [Plain("compass.ocean.streams", "streams.output"),
                               Plain("compass.ocean.tests.global_convergence.cosine_bell", "streams.forward")]
      ensures namelistFiles == [Plain("compass.ocean.tests.global_convergence.cosine_bell", "namelist.forward")]
      ensures inputs == [InputLink("init.nc", "../init/initial_state.nc"),
                         InputLink("graph.info", "../mesh/graph.info")]
      ensures outputs == ["output.nc"]
      ensures namelistOptions == map[] && runtimeNamelistUpdates == [] && modelResourceUpdates == []
    {
      this.resolution := resolution;
      name := StepName(resolution);
      subdir := StepSubdir(resolution);
      streamsFiles := [Plain("compass.ocean.streams", "streams.output")];
      namelistFiles := [Plain("compass.ocean.tests.global_convergence.cosine_bell", "namelist.forward")];
      streamsFiles := streamsFiles + [Plain("compass.ocean.tests.global_convergence.cosine_bell", "streams.forward")];
      inputs := [InputLink("init.nc", "../init/initial_state.nc")];
      inputs := inputs + [InputLink("graph.info", "../mesh/graph.info")];
      outputs := ["output.nc"];
      namelistOptions := map[];
      runtimeNamelistUpdates := [];
      modelResourceUpdates := [];
    }

    /** `setup`: sets `config_dt` among the namelist options. */
    method Setup(c: Options) returns (err: Option<ConfigError>)
      modifies this
      ensures Dt(c, resolution).Err? ==> err == Some(Dt(c, resolution).error) && namelistOptions == old(namelistOptions)
      ensures Dt(c, resolution).Ok? ==>
        err == None && namelistOptions == old(namelistOptions)["config_dt" := Dt(c, resolution).value]
      ensures runtimeNamelistUpdates == old(runtimeNamelistUpdates) && modelResourceUpdates == old(modelResourceUpdates)
      ensures inputs == old(inputs) && outputs == old(outputs)
      ensures namelistFiles == old(namelistFiles) && streamsFiles == old(streamsFiles)
    {
      var dt := Dt(c, resolution);
      if dt.Err? {
        return Some(dt.error);
      }
      namelistOptions := namelistOptions["config_dt" := dt.value];
      err := None;
    }

    /** `runtime_setup`: the model substep's task counts from the
        `QU<res>_cores` and `QU<res>_min_cores` options. */
    method RuntimeSetup(c: Options) returns (err: Option<ConfigError>)
      modifies this
      ensures var cores := GetInt(c, Section, MeshName(resolution) + "_cores");
        var minCores := GetInt(c, Section, MeshName(resolution) + "_min_cores");
        && (cores.Err? ==> err == Some(cores.error))
        && (cores.Ok? && minCores.Err? ==> err == Some(minCores.error))
        && (err.Some? ==> modelResourceUpdates == old(modelResourceUpdates))
        && (cores.Ok? && minCores.Ok? ==>
              err == None
              && modelResourceUpdates == old(modelResourceUpdates)
                 + [NoUpdate.(ntasks := Some(cores.value), minTasks := Some(minCores.value))])
      ensures namelistOptions == old(namelistOptions) && runtimeNamelistUpdates == old(runtimeNamelistUpdates)
      ensures inputs == old(inputs) && outputs == old(outputs)
      ensures namelistFiles == old(namelistFiles) && streamsFiles == old(streamsFiles)
    {
      var ntasks := GetInt(c, Section, MeshName(resolution) + "_cores");
      if ntasks.Err? {
        return Some(ntasks.error);
      }
      var minTasks := GetInt(c, Section, MeshName(resolution) + "_min_cores");
      if minTasks.Err? {
        return Some(minTasks.error);
      }
      modelResourceUpdates := modelResourceUpdates + [NoUpdate.(ntasks := Some(ntasks.value), minTasks := Some(minTasks.value))];
      err := None;
    }

    /** `run`: recomputes the time step, in case `dt_per_km` was changed
        after setup, and rewrites `config_dt` in `namelist.ocean`. */
    method Run(c: Options) returns (err: Option<ConfigError>)
      modifies this
      ensures Dt(c, resolution).Err? ==>
        err == Some(Dt(c, resolution).error) && runtimeNamelistUpdates == old(runtimeNamelistUpdates)
      ensures Dt(c, resolution).Ok? ==>
        err == None
        && runtimeNamelistUpdates == old(runtimeNamelistUpdates)
           + [NamelistUpdate(map["config_dt" := Dt(c, resolution).value], "namelist.ocean")]
      ensures namelistOptions == old(namelistOptions) && modelResourceUpdates == old(modelResourceUpdates)
      ensures inputs == old(inputs) && outputs == old(outputs)
      ensures namelistFiles == old(namelistFiles) && streamsFiles == old(streamsFiles)
    {
      var dt := Dt(c, resolution);
      if dt.Err? {
        return Some(dt.error);
      }
      runtimeNamelistUpdates := runtimeNamelistUpdates
        + [NamelistUpdate(map["config_dt" := dt.value], "namelist.ocean")];
      err := None;
    }
  }

  /** With the configuration unchanged between setup and run, the time step
      written at run time is the one chosen at setup, and it stands for
      `dt_per_km * resolution` seconds within the day. */
  method SetupAndRunAgree(resolution: int, c: Options) returns (atSetup: Option<string>, atRun: Option<string>)
    ensures atSetup == atRun
    ensures GetInt(c, Section, "dt_per_km").Ok? ==>
      atSetup.Some?
      && ParseHms(atSetup.value) == Some((GetInt(c, Section, "dt_per_km").value * resolution) % SecondsPerDay)
    ensures GetInt(c, Section, "dt_per_km").Err? ==> atSetup.None?
  {
    var step := new Forward(resolution);
    var err := step.Setup(c);
    atSetup := if err.None? && "config_dt" in step.namelistOptions then Some(step.namelistOptions["config_dt"]) else None;
    err := step.Run(c);
    atRun := if err.None? && |step.runtimeNamelistUpdates| == 1 && "config_dt" in step.runtimeNamelistUpdates[0].options
      then Some(step.runtimeNamelistUpdates[0].options["config_dt"]) else None;
    if GetInt(c, Section, "dt_per_km").Ok? {
      DtMeaning(c, resolution);
    }
  }
}
