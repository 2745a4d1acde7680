/**
 * The builder of an image pipeline: a list of steps appended in call order.
 * Every `add_*` copies the step list and appends one step, so a builder that
 * shares the old list keeps seeing the old steps (copy-on-write); on values
 * that is simply that the old builder is never changed.
 */
module ImageGenerateBuilder {
  import opened Wrappers
  import opened MachineInts
  import opened GpuTypes

  datatype PipelineStep =
    | Wgsl(wgsl: CompiledWgsl, params: Option<seq<u8>>, outputWidth: u32, outputHeight: u32)
    | Parallel(pipelines: seq<Builder>)
    | CpuFunc(func: CompiledFunc, params: Option<seq<u8>>, outputWidth: u32, outputHeight: u32)

  datatype Builder = Builder(steps: seq<PipelineStep>)

  function New(): (b: Builder)
    ensures b.steps == []
  {
    Builder([])
  }

  /** Append a WGSL step; the earlier steps are kept, in order. */
  function AddWgsl(b: Builder, wgsl: CompiledWgsl, params: Option<seq<u8>>, outputWidth: u32, outputHeight: u32): (r: Builder)
    ensures |r.steps| == |b.steps| + 1
    ensures r.steps[..|b.steps|] == b.steps
    ensures r.steps[|b.steps|] == Wgsl(wgsl, params, outputWidth, outputHeight)
  {
    Builder(b.steps + [Wgsl(wgsl, params, outputWidth, outputHeight)])
  }

  /** Append one step that runs several pipelines side by side. */
  function AddParallelWgsl(b: Builder, pipelines: seq<Builder>): (r: Builder)
    ensures |r.steps| == |b.steps| + 1
    ensures r.steps[..|b.steps|] == b.steps
    ensures r.steps[|b.steps|] == Parallel(pipelines)
  {
    Builder(b.steps + [Parallel(pipelines)])
  }

  /** Append a CPU function step. */
  function AddFunc(b: Builder, func: CompiledFunc, params: Option<seq<u8>>, outputWidth: u32, outputHeight: u32): (r: Builder)
    ensures |r.steps| == |b.steps| + 1
    ensures r.steps[..|b.steps|] == b.steps
    ensures r.steps[|b.steps|] == CpuFunc(func, params, outputWidth, outputHeight)
  {
    Builder(b.steps + [CpuFunc(func, params, outputWidth, outputHeight)])
  }

  /**
   * Two builders grown from one shared builder both still begin with the
   * shared steps, and each ends with only its own new step.
   */
  lemma BranchesShareOnlyTheBase(b: Builder, wgsl: CompiledWgsl, func: CompiledFunc,
                                 params: Option<seq<u8>>, w: u32, h: u32)
    ensures var left := AddWgsl(b, wgsl, params, w, h);
            var right := AddFunc(b, func, params, w, h);
      && left.steps[..|b.steps|] == right.steps[..|b.steps|] == b.steps
      && left.steps[|b.steps|].Wgsl? && right.steps[|b.steps|].CpuFunc?
  {
  }

  /** One `add_*` call of a builder chain, with its arguments. */
  datatype BuilderCall =
    | CallWgsl(wgsl: CompiledWgsl, params: Option<seq<u8>>, outputWidth: u32, outputHeight: u32)
    | CallParallelWgsl(pipelines: seq<Builder>)
    | CallFunc(func: CompiledFunc, params: Option<seq<u8>>, outputWidth: u32, outputHeight: u32)

  /** Make one call on a builder. */
  function Apply(b: Builder, c: BuilderCall): Builder
  {
    match c
    case CallWgsl(wgsl, params, w, h) => AddWgsl(b, wgsl, params, w, h)
    case CallParallelWgsl(ps) => AddParallelWgsl(b, ps)
    case CallFunc(func, params, w, h) => AddFunc(b, func, params, w, h)
  }

  /** Make the calls one after the other, each on the builder the previous returned. */
  function Chain(b: Builder, calls: seq<BuilderCall>): Builder
    decreases |calls|
  {
    if calls == [] then b else Chain(Apply(b, calls[0]), calls[1..])
  }

  /** The step a call appends, stated independently of the builder functions. */
  function StepOf(c: BuilderCall): PipelineStep
  {
    match c
    case CallWgsl(wgsl, params, w, h) => Wgsl(wgsl, params, w, h)
    case CallParallelWgsl(ps) => Parallel(ps)
    case CallFunc(func, params, w, h) => CpuFunc(func, params, w, h)
  }

  /**
   * Any chain of `add_*` calls keeps the steps it started from and then holds
   * exactly one step per call, in call order.
   */
  lemma {:induction false} ChainOrder(b: Builder, calls: seq<BuilderCall>)
    ensures |Chain(b, calls).steps| == |b.steps| + |calls|
    ensures Chain(b, calls).steps[..|b.steps|] == b.steps
    ensures forall i :: 0 <= i < |calls| ==> Chain(b, calls).steps[|b.steps| + i] == StepOf(calls[i])
    decreases |calls|
  {
    if calls != [] {
      var b1 := Apply(b, calls[0]);
      assert b1.steps == b.steps + [StepOf(calls[0])];
      ChainOrder(b1, calls[1..]);
      var r := Chain(b, calls);
      assert r == Chain(b1, calls[1..]);
      assert r.steps[..|b.steps|] == b.steps by {
        assert r.steps[..|b1.steps|][..|b.steps|] == b1.steps[..|b.steps|];
      }
      forall i | 0 <= i < |calls|
        ensures r.steps[|b.steps| + i] == StepOf(calls[i])
      {
        if i > 0 {
          assert calls[1..][i - 1] == calls[i];
          assert |b1.steps| + (i - 1) == |b.steps| + i;
        } else {
          assert r.steps[..|b1.steps|][|b.steps|] == b1.steps[|b.steps|];
        }
      }
    }
  }

  /** In particular, a chain started from `new` holds exactly the calls' steps, in order. */
  lemma ChainFromNew(calls: seq<BuilderCall>)
    ensures Chain(New(), calls).steps == seq(|calls|, i requires 0 <= i < |calls| => StepOf(calls[i]))
  {
    ChainOrder(New(), calls);
  }

  // ---------------------------------------------------------------------
  // A size of nested pipelines, used to show that running them terminates.

  function StepSize(s: PipelineStep): (n: nat)
    ensures n >= 1
    decreases s
  {
    match s
    case Parallel(ps) => 1 + PipelinesSize(ps)
    case _ => 1
  }

  function StepsSize(steps: seq<PipelineStep>): nat
    decreases steps
  {
    if steps == [] then 0 else StepSize(steps[0]) + StepsSize(steps[1..])
  }

  function PipelinesSize(ps: seq<Builder>): nat
    decreases ps
  {
    if ps == [] then 0 else 1 + StepsSize(ps[0].steps) + PipelinesSize(ps[1..])
  }

  lemma {:induction false} StepsSizeSuffix(steps: seq<PipelineStep>, i: nat)
    requires i < |steps|
    ensures StepsSize(steps[i..]) == StepSize(steps[i]) + StepsSize(steps[i + 1..])
  {
    assert steps[i..][1..] == steps[i + 1..];
  }

  lemma {:induction false} StepsSizeBound(steps: seq<PipelineStep>, i: nat)
    requires i <= |steps|
    ensures StepsSize(steps[i..]) <= StepsSize(steps)
    decreases i
  {
    if i > 0 {
      StepsSizeBound(steps[1..], i - 1);
      assert steps[1..][i - 1..] == steps[i..];
    } else {
      assert steps[0..] == steps;
    }
  }

  lemma {:induction false} PipelinesSizeSuffix(ps: seq<Builder>, j: nat)
    requires j < |ps|
    ensures PipelinesSize(ps[j..]) == 1 + StepsSize(ps[j].steps) + PipelinesSize(ps[j + 1..])
  {
    assert ps[j..][1..] == ps[j + 1..];
  }

  lemma {:induction false} PipelinesSizeBound(ps: seq<Builder>, j: nat)
    requires j <= |ps|
    ensures PipelinesSize(ps[j..]) <= PipelinesSize(ps)
    decreases j
  {
    if j > 0 {
      PipelinesSizeBound(ps[1..], j - 1);
      assert ps[1..][j - 1..] == ps[j..];
    } else {
      assert ps[0..] == ps;
    }
  }
}
