/** The iterative sea-surface-height adjustment step of the ice-shelf test
    cases (compass/ocean/iceshelf/ssh_adjustment.py): at run time it
    expands an iteration count into a chain of pre-model, model and
    post-model substeps whose files feed one another. */
module SshAdjustment {
  import opened Outcomes
  import opened Text

  /** An input the step declares: the model executable, or a file linked
      into the step's directory from a target path. */
  datatype InputFile = ModelExecutable | Link(filename: string, target: string)

  /** The substeps `runtime_setup` adds. The pre-model and model substeps
      are known by the prefix they are made with; their own behaviour lives
      in code outside this model. */
  datatype PlannedSubstep =
    | PreModel(prefix: string, inFilename: string, sshFilename: string)
    | ModelRun(prefix: string, ntasks: int, minTasks: int, openmpThreads: int, mem: string,
               namelist: string, streams: string)
    | PostModel(name: string, iterIndex: nat, iterCount: int, inFilename: string, sshFilename: string,
                nextFilename: string)

  const AdjustedInit: string := "adjusted_init.nc"

  /** The initial condition of iteration `i`. */
  function InFile(i: nat): string {
    "adjusting_init" + NatToDecimal(i) + ".nc"
  }

  /** Where the model of iteration `i` writes its SSH. */
  function SshFile(i: nat): string {
    "output_ssh" + NatToDecimal(i) + ".nc"
  }

  /** What the post-model substep of iteration `i` writes: the next
      iteration's initial condition, or the step's result after the last. */
  function NextFile(i: nat, count: int): string {
    if i < count - 1 then InFile(i + 1) else AdjustedInit
  }

  function ModelPrefix(i: nat): string {
    "model_" + Pad2(i)
  }

  function PostModelName(i: nat): string {
    "adjust_ssh_" + Pad2(i)
  }

  /** The three substeps of iteration `i` out of `count`, in the order they
      are added; the model substep gets the step's resources. */
  function Iteration(i: nat, count: int, ntasks: int, minTasks: int, openmpThreads: int, mem: string)
    : seq<PlannedSubstep>
  {
    [PreModel(ModelPrefix(i), InFile(i), SshFile(i)),
     ModelRun(ModelPrefix(i), ntasks, minTasks, openmpThreads, mem, "namelist.ocean", "streams.ocean"),
     PostModel(PostModelName(i), i, count, InFile(i), SshFile(i), NextFile(i, count))]
  }

  /** The substeps of the first `n` iterations. */
  function Plan(n: nat, count: int, ntasks: int, minTasks: int, openmpThreads: int, mem: string)
    : (p: seq<PlannedSubstep>)
    ensures |p| == 3 * n
  {
    if n == 0 then []
    else (Plan(n - 1, count, ntasks, minTasks, openmpThreads, mem)
          + Iteration(n - 1, count, ntasks, minTasks, openmpThreads, mem))
  }

  /** Substeps `3i`, `3i+1` and `3i+2` of the plan are iteration `i`'s
      pre-model, model and post-model substeps. */
  lemma {:induction false} PlanAt(n: nat, count: int, ntasks: int, minTasks: int, openmpThreads: int, mem: string, i: nat)
    requires i < n
    ensures Plan(n, count, ntasks, minTasks, openmpThreads, mem)[3 * i..3 * i + 3]
         == Iteration(i, count, ntasks, minTasks, openmpThreads, mem)
    decreases n
  {
    var p := Plan(n - 1, count, ntasks, minTasks, openmpThreads, mem);
    var it := Iteration(n - 1, count, ntasks, minTasks, openmpThreads, mem);
    var whole := Plan(n, count, ntasks, minTasks, openmpThreads, mem);
    assert whole == p + it;
    if i < n - 1 {
      PlanAt(n - 1, count, ntasks, minTasks, openmpThreads, mem, i);
      SliceOfFront(p, it, 3 * i, 3 * i + 3);
      assert whole[3 * i..3 * i + 3] == p[3 * i..3 * i + 3];
    } else {
      SliceOfBack(p, it);
      assert |p| == 3 * i && |it| == 3;
      assert whole[3 * i..3 * i + 3] == it;
    }
  }

  /** The plan of `n + 1` iterations is that of `n` with iteration `n`'s
      three substeps appended one by one. */
  lemma PlanGrows(base: seq<PlannedSubstep>, n: nat, count: int, ntasks: int, minTasks: int, openmpThreads: int,
                  mem: string, pre: PlannedSubstep, model: PlannedSubstep, post: PlannedSubstep)
    requires [pre, model, post] == Iteration(n, count, ntasks, minTasks, openmpThreads, mem)
    ensures base + Plan(n + 1, count, ntasks, minTasks, openmpThreads, mem)
         == ((base + Plan(n, count, ntasks, minTasks, openmpThreads, mem)) + [pre]) + [model] + [post]
  {
    var p := Plan(n, count, ntasks, minTasks, openmpThreads, mem);
    assert ((base + p) + [pre]) + [model] + [post] == base + (p + [pre, model, post]);
  }

  /** Iteration `i`'s post-model substep writes the file iteration
      `i + 1`'s pre-model substep reads. */
  lemma ChainStep(count: nat, ntasks: int, minTasks: int, openmpThreads: int, mem: string, i: nat)
    requires i + 1 < count
    ensures var p := Plan(count, count, ntasks, minTasks, openmpThreads, mem);
      p[3 * i + 2].PostModel? && p[3 * i + 3].PreModel? && p[3 * i + 2].nextFilename == p[3 * i + 3].inFilename
  {
    var p := Plan(count, count, ntasks, minTasks, openmpThreads, mem);
    PlanAt(count, count, ntasks, minTasks, openmpThreads, mem, i);
    PlanAt(count, count, ntasks, minTasks, openmpThreads, mem, i + 1);
    assert p[3 * i + 2] == p[3 * i..3 * i + 3][2];
    assert p[3 * i + 3] == p[3 * (i + 1)..3 * (i + 1) + 3][0];
  }

  /** The files chain: the first iteration starts from the step's linked
      initial condition, each post-model substep writes exactly the file
      the next pre-model substep reads, and the last writes the step's
      declared output. */
  lemma FilesChain(count: nat, ntasks: int, minTasks: int, openmpThreads: int, mem: string)
    requires count > 0
    ensures var p := Plan(count, count, ntasks, minTasks, openmpThreads, mem);
      p[0].PreModel? && p[0].inFilename == "adjusting_init0.nc"
      && p[3 * count - 1].PostModel? && p[3 * count - 1].nextFilename == AdjustedInit
    ensures var p := Plan(count, count, ntasks, minTasks, openmpThreads, mem);
      forall i :: 0 <= i < count - 1 ==>
        p[3 * i + 2].PostModel? && p[3 * i + 3].PreModel? && p[3 * i + 2].nextFilename == p[3 * i + 3].inFilename
  {
    var p := Plan(count, count, ntasks, minTasks, openmpThreads, mem);
    PlanAt(count, count, ntasks, minTasks, openmpThreads, mem, 0);
    assert p[0] == p[0..3][0];
    assert NatToDecimal(0) == "0";
    PlanAt(count, count, ntasks, minTasks, openmpThreads, mem, count - 1);
    assert p[3 * count - 1] == p[3 * (count - 1)..3 * (count - 1) + 3][2];
    forall i | 0 <= i < count - 1 {
      ChainStep(count, ntasks, minTasks, openmpThreads, mem, i);
    }
  }

  /** Different iterations use different substep names and files. */
  lemma NamesDistinct(i: nat, j: nat)
    requires i != j
    ensures ModelPrefix(i) != ModelPrefix(j) && PostModelName(i) != PostModelName(j)
    ensures InFile(i) != InFile(j) && SshFile(i) != SshFile(j)
  {
    ParsePad2(i);
    ParsePad2(j);
    ParseNatDecimal(i);
    ParseNatDecimal(j);
    PrefixCancel("model_", Pad2(i), Pad2(j));
    PrefixCancel("adjust_ssh_", Pad2(i), Pad2(j));
    AffixCancel("adjusting_init", NatToDecimal(i), NatToDecimal(j), ".nc");
    AffixCancel("output_ssh", NatToDecimal(i), NatToDecimal(j), ".nc");
  }

  /** No intermediate initial condition is the step's final output. */
  lemma InFileIsNotFinal(i: nat)
    ensures InFile(i) != AdjustedInit
  {
    assert InFile(i)[6] == 'i' && AdjustedInit[6] == 'e';
  }

  datatype PostModelError = UnknownVariable(variable: string)

  /** What a post-model substep touches when it runs: the files it reads,
      the files it writes and the variables it replaces in the new initial
      condition. */
  datatype PostModelEffect = PostModelEffect(readFiles: seq<string>, writtenFiles: seq<string>, updated: seq<string>)

  /** `PostModelSubstep.run` without its numerics: an unknown variable is
      refused before any file is opened; otherwise it reads the iteration's
      initial condition and SSH output, and writes the next initial
      condition and a log of the largest change. */
  function PostModelRun(variable: string, s: PlannedSubstep): (r: Result<PostModelEffect, PostModelError>)
    requires s.PostModel?
    ensures r.Err? <==> variable != "ssh" && variable != "landIcePressure"
    ensures r.Err? ==> r.error == UnknownVariable(variable)
    ensures r.Ok? ==> r.value.readFiles == [s.inFilename, s.sshFilename]
    ensures r.Ok? ==> |r.value.writtenFiles| == 2 && r.value.writtenFiles[0] == s.nextFilename
    ensures r.Ok? ==> (variable in r.value.updated) && (variable == "ssh" <==> "layerThickness" in r.value.updated)
  {
    if variable !in ["ssh", "landIcePressure"] then Err(UnknownVariable(variable))
    else
      var updated := if variable == "ssh" then ["ssh", "landIceDraft", "layerThickness"] else ["landIcePressure"];
      Ok(PostModelEffect([s.inFilename, s.sshFilename],
                         [s.nextFilename, "maxDeltaSSH_" + Pad2(s.iterIndex) + ".log"], updated))
  }

  /** A post-model substep that runs writes the file the next iteration's
      pre-model substep starts from. */
  lemma PostModelFeedsNext(variable: string, count: nat, ntasks: int, minTasks: int, openmpThreads: int,
                           mem: string, i: nat)
    requires variable == "ssh" || variable == "landIcePressure"
    requires i + 1 < count
    ensures var p := Plan(count, count, ntasks, minTasks, openmpThreads, mem);
      p[3 * i + 2].PostModel? && p[3 * i + 3].PreModel?
      && PostModelRun(variable, p[3 * i + 2]).Ok?
      && PostModelRun(variable, p[3 * i + 2]).value.writtenFiles[0] == p[3 * i + 3].inFilename
  {
    ChainStep(count, ntasks, minTasks, openmpThreads, mem, i);
  }

  /** The step. Its resource fields are handed to every model substep it
      makes at run time. */
  class SshAdjustmentStep {
    const name: string
    var ntasks: int
    var minTasks: int
    var openmpThreads: int
    var mem: string
    var inputs: seq<InputFile>
    var outputs: seq<string>
    var namelistOptions: map<string, string>
    var streamsReplacements: map<string, string>
    var substeps: seq<PlannedSubstep>

    /** The step starts with no substeps, one model task and thread and
      1GB of memory; it links the initial condition and the graph file in,
      and declares the adjusted initial condition as its output. */
    constructor (initFilename: string, graphFilename: string)
      ensures name == "ssh_adjustment" && substeps == []
      ensures ntasks == 1 && minTasks == 1 && openmpThreads == 1 && mem == "1GB"
      ensures inputs == [ModelExecutable, Link("adjusting_init0.nc", initFilename),
                         Link("graph.info", graphFilename), ModelExecutable]
      ensures outputs == [AdjustedInit, AdjustedInit]
      ensures namelistOptions == map["config_check_ssh_consistency" := ".false.",
                                     "config_land_ice_flux_mode" := "'pressure_only'"]
      ensures streamsReplacements == map["in_filename" := "adjusting_init0.nc",
                                         "out_filename" := "output_ssh0.nc",
                                         "run_duration" := "0000_01:00:00"]
    {
      name := "ssh_adjustment";
      substeps := [];
      ntasks := 1;
      minTasks := 1;
      openmpThreads := 1;
      mem := "1GB";
      inputs := [ModelExecutable];
      outputs := [AdjustedInit];
      inputs := inputs + [Link("adjusting_init0.nc", initFilename)];
      inputs := inputs + [Link("graph.info", graphFilename)];
      inputs := inputs + [ModelExecutable];
      outputs := outputs + [AdjustedInit];
      namelistOptions := map["config_check_ssh_consistency" := ".false.",
                             "config_land_ice_flux_mode" := "'pressure_only'"];
      streamsReplacements := map["in_filename" := "adjusting_init0.nc",
                                 "out_filename" := "output_ssh0.nc",
                                 "run_duration" := "0000_01:00:00"];
    }

    /** Overwrites each resource field whose argument is given and nothing else. */
    method SetResources(ntasks: Option<int> := None, minTasks: Option<int> := None,
                        openmpThreads: Option<int> := None, mem: Option<string> := None)
      modifies this
      ensures this.ntasks == ntasks.GetOr(old(this.ntasks))
      ensures this.minTasks == minTasks.GetOr(old(this.minTasks))
      ensures this.openmpThreads == openmpThreads.GetOr(old(this.openmpThreads))
      ensures this.mem == mem.GetOr(old(this.mem))
      ensures inputs == old(inputs) && outputs == old(outputs) && substeps == old(substeps)
      ensures namelistOptions == old(namelistOptions) && streamsReplacements == old(streamsReplacements)
    {
      if ntasks.Some? {
        this.ntasks := ntasks.value;
      }
      if minTasks.Some? {
        this.minTasks := minTasks.value;
      }
      if openmpThreads.Some? {
        this.openmpThreads := openmpThreads.value;
      }
      if mem.Some? {
        this.mem := mem.value;
      }
    }

    /** Adds three substeps per iteration, for the iteration count read
      from the configuration; a count of zero or less adds none. */
    method RuntimeSetup(iterCount: int)
      modifies this
      ensures var n := if iterCount < 0 then 0 else iterCount;
        substeps == old(substeps) + Plan(n, iterCount, ntasks, minTasks, openmpThreads, mem)
      ensures ntasks == old(ntasks) && minTasks == old(minTasks)
      ensures openmpThreads == old(openmpThreads) && mem == old(mem)
      ensures inputs == old(inputs) && outputs == old(outputs)
      ensures namelistOptions == old(namelistOptions) && streamsReplacements == old(streamsReplacements)
    {
      var ntasks, minTasks, openmpThreads, mem := this.ntasks, this.minTasks, this.openmpThreads, this.mem;
      var iterIndex := 0;
      while iterIndex < iterCount
        invariant 0 <= iterIndex && (iterCount >= 0 ==> iterIndex <= iterCount)
        invariant iterCount < 0 ==> iterIndex == 0
        invariant substeps == old(substeps) + Plan(iterIndex, iterCount, ntasks, minTasks, openmpThreads, mem)
        invariant this.ntasks == ntasks && this.minTasks == minTasks
        invariant this.openmpThreads == openmpThreads && this.mem == mem
        invariant inputs == old(inputs) && outputs == old(outputs)
        invariant namelistOptions == old(namelistOptions) && streamsReplacements == old(streamsReplacements)
      {
        var inFilename := "adjusting_init" + NatToDecimal(iterIndex) + ".nc";
        var sshFilename := "output_ssh" + NatToDecimal(iterIndex) + ".nc";
        var nextFilename;
        if iterIndex < iterCount - 1 {
          nextFilename := "adjusting_init" + NatToDecimal(iterIndex + 1) + ".nc";
        } else {
          nextFilename := "adjusted_init.nc";
        }
        var prefix := "model_" + Pad2(iterIndex);
        var pre := PreModel(prefix, inFilename, sshFilename);
        var model := ModelRun(prefix, ntasks, minTasks, openmpThreads, mem, "namelist.ocean", "streams.ocean");
        var post := PostModel("adjust_ssh_" + Pad2(iterIndex), iterIndex, iterCount,
                              inFilename, sshFilename, nextFilename);
        PlanGrows(old(substeps), iterIndex, iterCount, ntasks, minTasks, openmpThreads, mem, pre, model, post);
        substeps := substeps + [pre];
        substeps := substeps + [model];
        substeps := substeps + [post];
        iterIndex := iterIndex + 1;
      }
    }
  }

  /** A new step told to run two iterations gets six substeps, the second
      model run starting from the first one's result. */
  method TwoIterations(initFilename: string, graphFilename: string) returns (plan: seq<PlannedSubstep>)
    ensures |plan| == 6
    ensures plan[2].PostModel? && plan[3].PreModel? && plan[2].nextFilename == plan[3].inFilename
    ensures plan[5].PostModel? && plan[5].nextFilename == AdjustedInit
    ensures plan[1] == ModelRun("model_00", 1, 1, 1, "1GB", "namelist.ocean", "streams.ocean")
  {
    var step := new SshAdjustmentStep(initFilename, graphFilename);
    step.RuntimeSetup(2);
    plan := step.substeps;
    FilesChain(2, 1, 1, 1, "1GB");
    PlanAt(2, 2, 1, 1, 1, "1GB", 0);
    assert plan[1] == plan[0..3][1];
    assert Pad2(0) == "00";
  }
}
