/** A substep: the part of a step with fixed resource requirements
    (compass/substep.py). */
module Substeps {
  import opened Outcomes

  /** The resource fields of a substep. */
  datatype Resources = Resources(
    cpusPerTask: int,
    minCpusPerTask: int,
    ntasks: int,
    minTasks: int,
    openmpThreads: int,
    mem: string)

  /** What a substep asks for when the caller passes no resources. */
  const DefaultResources: Resources := Resources(1, 1, 1, 1, 1, "1G")

  /** The arguments of `set_resources`: `None` leaves a field alone. */
  datatype ResourceUpdate = ResourceUpdate(
    cpusPerTask: Option<int>,
    minCpusPerTask: Option<int>,
    ntasks: Option<int>,
    minTasks: Option<int>,
    openmpThreads: Option<int>,
    mem: Option<string>)

  const NoUpdate: ResourceUpdate := ResourceUpdate(None, None, None, None, None, None)

  /** The resources after a partial update: exactly the fields given a
      value take it, every other field keeps its old value. */
  function Apply(r: Resources, u: ResourceUpdate): (r': Resources)
    ensures u.cpusPerTask.Some? ==> r'.cpusPerTask == u.cpusPerTask.value
    ensures u.cpusPerTask.None? ==> r'.cpusPerTask == r.cpusPerTask
    ensures u.minCpusPerTask.Some? ==> r'.minCpusPerTask == u.minCpusPerTask.value
    ensures u.minCpusPerTask.None? ==> r'.minCpusPerTask == r.minCpusPerTask
    ensures u.ntasks.Some? ==> r'.ntasks == u.ntasks.value
    ensures u.ntasks.None? ==> r'.ntasks == r.ntasks
    ensures u.minTasks.Some? ==> r'.minTasks == u.minTasks.value
    ensures u.minTasks.None? ==> r'.minTasks == r.minTasks
    ensures u.openmpThreads.Some? ==> r'.openmpThreads == u.openmpThreads.value
    ensures u.openmpThreads.None? ==> r'.openmpThreads == r.openmpThreads
    ensures u.mem.Some? ==> r'.mem == u.mem.value
    ensures u.mem.None? ==> r'.mem == r.mem
  {
    Resources(
      u.cpusPerTask.GetOr(r.cpusPerTask),
      u.minCpusPerTask.GetOr(r.minCpusPerTask),
      u.ntasks.GetOr(r.ntasks),
      u.minTasks.GetOr(r.minTasks),
      u.openmpThreads.GetOr(r.openmpThreads),
      u.mem.GetOr(r.mem))
  }

  /** The later of two updates wins field by field. */
  function Then(u: ResourceUpdate, v: ResourceUpdate): ResourceUpdate {
    ResourceUpdate(
      if v.cpusPerTask.Some? then v.cpusPerTask else u.cpusPerTask,
      if v.minCpusPerTask.Some? then v.minCpusPerTask else u.minCpusPerTask,
      if v.ntasks.Some? then v.ntasks else u.ntasks,
      if v.minTasks.Some? then v.minTasks else u.minTasks,
      if v.openmpThreads.Some? then v.openmpThreads else u.openmpThreads,
      if v.mem.Some? then v.mem else u.mem)
  }

  /** `set_resources()` with no arguments leaves the resources as they were. */
  lemma ApplyNothing(r: Resources)
    ensures Apply(r, NoUpdate) == r
  {
  }

  /** Passing the same arguments twice is the same as passing them once. */
  lemma ApplyIdempotent(r: Resources, u: ResourceUpdate)
    ensures Apply(Apply(r, u), u) == Apply(r, u)
  {
  }

  /** Two calls in a row are one call with the later arguments winning. */
  lemma ApplyThen(r: Resources, u: ResourceUpdate, v: ResourceUpdate)
    ensures Apply(Apply(r, u), v) == Apply(r, Then(u, v))
  {
  }

  /** An update that names every field forgets the old resources. */
  lemma ApplyTotal(r: Resources, s: Resources, u: ResourceUpdate)
    requires u.cpusPerTask.Some? && u.minCpusPerTask.Some? && u.ntasks.Some?
    requires u.minTasks.Some? && u.openmpThreads.Some? && u.mem.Some?
    ensures Apply(r, u) == Apply(s, u)
  {
  }

  /** What the step needs to know about one of its substeps to dispatch it. */
  datatype SubstepInfo = SubstepInfo(
    name: string,
    resources: Resources,
    args: Option<seq<string>>,
    delegatesToStep: bool)

  /** A substep object. `step` is the name of the step it belongs to; the
      step object itself lives outside this model. `delegatesToStep` marks
      the default substep, whose `run` is the step's own `run`. */
  class Substep {
    var name: string
    var step: string
    var resources: Resources
    var args: Option<seq<string>>
    const delegatesToStep: bool

    constructor (step: string, name: string, cpusPerTask: int := 1,
                 minCpusPerTask: int := 1, ntasks: int := 1, minTasks: int := 1,
                 openmpThreads: int := 1, mem: string := "1G")
      ensures this.name == name && this.step == step
      ensures resources == Resources(cpusPerTask, minCpusPerTask, ntasks, minTasks, openmpThreads, mem)
      ensures args == None && !delegatesToStep
    {
      this.name := name;
      this.step := step;
      resources := Resources(cpusPerTask, minCpusPerTask, ntasks, minTasks, openmpThreads, mem);
      args := None;
      delegatesToStep := false;
    }

    /** The default substep of a step: named "default", runs the step. */
    constructor Default(step: string, cpusPerTask: int := 1,
                        minCpusPerTask: int := 1, ntasks: int := 1, minTasks: int := 1,
                        openmpThreads: int := 1, mem: string := "1G")
      ensures name == "default" && this.step == step
      ensures resources == Resources(cpusPerTask, minCpusPerTask, ntasks, minTasks, openmpThreads, mem)
      ensures args == None && delegatesToStep
    {
      name := "default";
      this.step := step;
      resources := Resources(cpusPerTask, minCpusPerTask, ntasks, minTasks, openmpThreads, mem);
      args := None;
      delegatesToStep := true;
    }

    /** Overwrites each resource field whose argument is given. */
    method SetResources(cpusPerTask: Option<int> := None, minCpusPerTask: Option<int> := None,
                        ntasks: Option<int> := None, minTasks: Option<int> := None,
                        openmpThreads: Option<int> := None, mem: Option<string> := None)
      modifies this
      ensures resources == Apply(old(resources),
        ResourceUpdate(cpusPerTask, minCpusPerTask, ntasks, minTasks, openmpThreads, mem))
      ensures name == old(name) && step == old(step) && args == old(args)
    {
      if cpusPerTask.Some? {
        resources := resources.(cpusPerTask := cpusPerTask.value);
      }
      if minCpusPerTask.Some? {
        resources := resources.(minCpusPerTask := minCpusPerTask.value);
      }
      if ntasks.Some? {
        resources := resources.(ntasks := ntasks.value);
      }
      if minTasks.Some? {
        resources := resources.(minTasks := minTasks.value);
      }
      if openmpThreads.Some? {
        resources := resources.(openmpThreads := openmpThreads.value);
      }
      if mem.Some? {
        resources := resources.(mem := mem.value);
      }
    }

    /** The steps whose `run` this substep's `run` calls: the owning step,
        once, for the default substep; none for the base class, whose
        `run` does nothing. */
    method Run() returns (stepRuns: seq<string>)
      ensures delegatesToStep ==> stepRuns == [step]
      ensures !delegatesToStep ==> stepRuns == []
    {
      if delegatesToStep {
        stepRuns := [step];
      } else {
        stepRuns := [];
      }
    }

    function Info(): (i: SubstepInfo)
      reads this
      ensures i.name == name && i.resources == resources
      ensures i.args == args && i.delegatesToStep == delegatesToStep
    {
      SubstepInfo(name, resources, args, delegatesToStep)
    }
  }

  /** A freshly made default substep asks for the default resources, and
      running it runs its step exactly once. */
  method DefaultSubstepRunsStep(step: string) returns (info: SubstepInfo, stepRuns: seq<string>)
    ensures info == SubstepInfo("default", DefaultResources, None, true)
    ensures stepRuns == [step]
  {
    var s := new Substep.Default(step);
    info := s.Info();
    stepRuns := s.Run();
  }

  /** A plain substep with no resources given asks for the defaults, and a
      later `set_resources` touches only the fields it is passed. */
  method PlainSubstepResources(step: string, name: string, ntasks: int, mem: string)
    returns (before: Resources, after: SubstepInfo)
    ensures before == DefaultResources
    ensures after == SubstepInfo(name, Resources(1, 1, ntasks, 1, 1, mem), None, false)
  {
    var s := new Substep(step, name);
    before := s.resources;
    s.SetResources(ntasks := Some(ntasks), mem := Some(mem));
    after := s.Info();
  }
}
