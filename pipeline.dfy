/**
 * Running a pipeline: `execute_pipeline` threads the processing state
 * through the steps in order and collects the encoders they record;
 * `handle_parallel_step` runs every sub-pipeline from the same state and
 * concatenates what they produce; `generate` runs a builder from the empty
 * state, submits the encoders and turns the single final output into bytes.
 *
 * The sub-pipelines of a parallel step share the generator (its caches, its
 * device and its queue); the model runs them one after the other in their
 * order.
 */
module Pipeline {
  import opened Wrappers
  import opened MachineInts
  import opened GpuTypes
  import opened GeneratorCore
  import opened ImageGenerateBuilder
  import opened WgslProcess
  import opened CpuFuncProcess
  import opened FinalProcess

  /** Whether some sub-pipeline has a CPU step among its own steps (nested parallel steps are not looked into). */
  predicate HasCpuProcessing(ps: seq<Builder>)
  {
    exists j, k :: 0 <= j < |ps| && 0 <= k < |ps[j].steps| && ps[j].steps[k].CpuFunc?
  }

  /** The pending encoders a parallel step leaves to its caller: none once it has submitted them. */
  function Remaining(ps: seq<Builder>, pending: seq<Encoder>): seq<Encoder>
  {
    if HasCpuProcessing(ps) && pending != [] then [] else pending
  }

  /**
   * `execute_pipeline` from step `i` on, with `state` and the encoders
   * `pending` so far. A step's error ends the run.
   */
  function Execute(m: GenModel, env: GpuContents, steps: seq<PipelineStep>, i: nat,
                   state: ProcessingState, pending: seq<Encoder>): (GenModel, StepResult)
    requires i <= |steps|
    decreases StepsSize(steps[i..]), 2
  {
    if i == |steps| then (m, Ok((state, pending)))
    else
      StepsSizeSuffix(steps, i);
      match steps[i]
      case Wgsl(wgsl, params, outputWidth, outputHeight) =>
        var (m1, st, encs) := WgslStep(m, state, wgsl, params, i, outputWidth, outputHeight);
        Execute(m1, env, steps, i + 1, st, pending + encs)
      case CpuFunc(func, params, outputWidth, outputHeight) =>
        // The CPU step has submitted the pending encoders, so only its own (none) remain.
        var (m1, r) := CpuFuncStep(m, env, state, func, params, outputWidth, outputHeight, pending);
        if r.Err? then (m1, Err(r.error))
        else Execute(m1, env, steps, i + 1, r.value.0, r.value.1)
      case Parallel(ps) =>
        var (m1, r) := ParallelStep(m, env, ps, state, pending);
        if r.Err? then (m1, Err(r.error))
        else Execute(m1, env, steps, i + 1, r.value.0, Remaining(ps, pending) + r.value.1)
  }

  /**
   * `handle_parallel_step`: the pending encoders are submitted first when a
   * sub-pipeline has a CPU step; every sub-pipeline then runs from `state`
   * with no pending encoders, and their results are combined in order.
   */
  function ParallelStep(m: GenModel, env: GpuContents, ps: seq<Builder>, state: ProcessingState,
                        pending: seq<Encoder>): (GenModel, StepResult)
    decreases PipelinesSize(ps), 1
  {
    var m1 := if HasCpuProcessing(ps) && pending != [] then Enqueued(m, Submit(pending)) else m;
    assert ps[0..] == ps;
    var (m2, results) := RunSubPipelines(m1, env, ps, 0, state, []);
    if results.Err? then (m2, Err(results.error))
    else (m2, Combine(results.value, 0, [], []))
  }

  /**
   * The sub-pipelines from `j` on, each from `initial`, their results
   * collected in order after `acc`. A panic in one ends the whole run;
   * an error is collected like a result.
   */
  function RunSubPipelines(m: GenModel, env: GpuContents, ps: seq<Builder>, j: nat,
                           initial: ProcessingState, acc: seq<StepResult>): (GenModel, Result<seq<StepResult>, Error>)
    requires j <= |ps|
    decreases PipelinesSize(ps[j..]), 0
  {
    if j == |ps| then (m, Ok(acc))
    else
      PipelinesSizeSuffix(ps, j);
      assert ps[j].steps[0..] == ps[j].steps;
      var (m1, r) := Execute(m, env, ps[j].steps, 0, initial, []);
      if r.Err? && r.error.Panic? then (m1, Err(r.error))
      else RunSubPipelines(m1, env, ps, j + 1, initial, acc + [r])
  }

  /** The combining loop from result `k` on: the first error, or every state and encoder appended in order. */
  function Combine(results: seq<StepResult>, k: nat, accState: ProcessingState, accEncoders: seq<Encoder>): StepResult
    requires k <= |results|
    decreases |results| - k
  {
    if k == |results| then Ok((accState, accEncoders))
    else if results[k].Err? then Err(results[k].error)
    else Combine(results, k + 1, accState + results[k].value.0, accEncoders + results[k].value.1)
  }

  /** `generate`: run from the empty state, submit the encoders, then convert the one final output. */
  function GenerateResult(m: GenModel, env: GpuContents, post: PipelineHandle, builder: Builder)
    : (GenModel, Result<seq<u8>, Error>)
  {
    var (m1, r) := Execute(m, env, builder.steps, 0, [], []);
    if r.Err? then (m1, Err(r.error))
    else
      var m2 := Enqueued(m1, Submit(r.value.1));
      if |r.value.0| != 1 then (m2, Err(WrongFinalStateLength(|r.value.0|)))
      else FinalStep(m2, env, post, r.value.0)
  }

  // ---------------------------------------------------------------------
  // Reference definitions and the properties of a run.

  /** The states of the successful results, one after the other. */
  function OkStates(results: seq<StepResult>): ProcessingState
  {
    if results == [] then [] else (if results[0].Ok? then results[0].value.0 else []) + OkStates(results[1..])
  }

  /** The encoders of the successful results, one after the other. */
  function OkEncoders(results: seq<StepResult>): seq<Encoder>
  {
    if results == [] then [] else (if results[0].Ok? then results[0].value.1 else []) + OkEncoders(results[1..])
  }

  /** Whether a pipeline ends with a WGSL or a CPU step, which gives a single output. */
  predicate EndsWithSingle(steps: seq<PipelineStep>)
  {
    |steps| > 0 && !steps[|steps| - 1].Parallel?
  }

  function LastStep(steps: seq<PipelineStep>): PipelineStep
    requires |steps| > 0
  {
    steps[|steps| - 1]
  }

  /**
   * An output as the last step of `steps`, a WGSL or a CPU step, declares
   * it: on the GPU for a WGSL step, on the CPU otherwise, of the declared size.
   */
  predicate DeclaredBy(o: StepOutput, steps: seq<PipelineStep>)
  {
    && EndsWithSingle(steps)
    && var s := LastStep(steps);
       o.width == s.outputWidth && o.height == s.outputHeight && (o.Gpu? <==> s.Wgsl?)
  }

  /**
   * The combining loop succeeds exactly when every result did, and then
   * appends every state and every encoder in order; otherwise it returns
   * the error of the first result that failed.
   */
  lemma {:induction false} CombineSpec(results: seq<StepResult>, k: nat, accState: ProcessingState, accEncoders: seq<Encoder>)
    requires k <= |results|
    ensures var r := Combine(results, k, accState, accEncoders);
      && (r.Ok? <==> forall i :: k <= i < |results| ==> results[i].Ok?)
      && (r.Ok? ==> r.value == (accState + OkStates(results[k..]), accEncoders + OkEncoders(results[k..])))
      && (r.Err? ==> exists i :: k <= i < |results| && results[i].Err? && r.error == results[i].error
                                && forall i' :: k <= i' < i ==> results[i'].Ok?)
    decreases |results| - k
  {
    var r := Combine(results, k, accState, accEncoders);
    if k == |results| {
      assert results[k..] == [];
      assert accState + [] == accState && accEncoders + [] == accEncoders;
    } else {
      var rest := results[k..];
      assert rest[1..] == results[k + 1..];
      assert rest[0] == results[k];
      if results[k].Ok? {
        var (st, encs) := results[k].value;
        CombineSpec(results, k + 1, accState + st, accEncoders + encs);
        assert OkStates(rest) == st + OkStates(results[k + 1..]);
        assert OkEncoders(rest) == encs + OkEncoders(results[k + 1..]);
        assert accState + st + OkStates(results[k + 1..]) == accState + OkStates(rest);
        assert accEncoders + encs + OkEncoders(results[k + 1..]) == accEncoders + OkEncoders(rest);
        if r.Err? {
          var i :| k + 1 <= i < |results| && results[i].Err? && r.error == results[i].error
                   && forall i' :: k + 1 <= i' < i ==> results[i'].Ok?;
          assert forall i' :: k <= i' < i ==> results[i'].Ok?;
        }
      } else {
        assert r == Err(results[k].error);
      }
    }
  }

  /** Results that each hold one output give one output per result, in order. */
  lemma {:induction false} OkStatesOfSingles(results: seq<StepResult>)
    requires forall i :: 0 <= i < |results| ==> results[i].Ok? && |results[i].value.0| == 1
    ensures |OkStates(results)| == |results|
    ensures forall i :: 0 <= i < |results| ==> OkStates(results)[i] == results[i].value.0[0]
  {
    if results != [] {
      OkStatesOfSingles(results[1..]);
    }
  }

  /** Every run keeps the generator valid; so do a parallel step and its sub-pipelines. */
  lemma {:induction false} ExecuteValid(m: GenModel, env: GpuContents, steps: seq<PipelineStep>, i: nat,
                                        state: ProcessingState, pending: seq<Encoder>)
    requires GenValid(m) && i <= |steps|
    ensures GenValid(Execute(m, env, steps, i, state, pending).0)
    decreases StepsSize(steps[i..]), 2
  {
    if i < |steps| {
      StepsSizeSuffix(steps, i);
      match steps[i]
      case Wgsl(wgsl, params, outputWidth, outputHeight) =>
        WgslStepFacts(m, state, wgsl, params, i, outputWidth, outputHeight);
        var (m1, st, encs) := WgslStep(m, state, wgsl, params, i, outputWidth, outputHeight);
        ExecuteValid(m1, env, steps, i + 1, st, pending + encs);
      case CpuFunc(func, params, outputWidth, outputHeight) =>
        CpuFuncStepFacts(m, env, state, func, params, outputWidth, outputHeight, pending);
        var (m1, r) := CpuFuncStep(m, env, state, func, params, outputWidth, outputHeight, pending);
        if r.Ok? {
          ExecuteValid(m1, env, steps, i + 1, r.value.0, r.value.1);
        }
      case Parallel(ps) =>
        ParallelValid(m, env, ps, state, pending);
        var (m1, r) := ParallelStep(m, env, ps, state, pending);
        if r.Ok? {
          ExecuteValid(m1, env, steps, i + 1, r.value.0, Remaining(ps, pending) + r.value.1);
        }
    }
  }

  lemma {:induction false} ParallelValid(m: GenModel, env: GpuContents, ps: seq<Builder>, state: ProcessingState,
                                         pending: seq<Encoder>)
    requires GenValid(m)
    ensures GenValid(ParallelStep(m, env, ps, state, pending).0)
    decreases PipelinesSize(ps), 1
  {
    FreshAndEnqueueKeepValid(m, 0, Submit(pending));
    var m1 := if HasCpuProcessing(ps) && pending != [] then Enqueued(m, Submit(pending)) else m;
    assert ps[0..] == ps;
    RunSubValid(m1, env, ps, 0, state, []);
  }

  lemma {:induction false} RunSubValid(m: GenModel, env: GpuContents, ps: seq<Builder>, j: nat,
                                       initial: ProcessingState, acc: seq<StepResult>)
    requires GenValid(m) && j <= |ps|
    ensures GenValid(RunSubPipelines(m, env, ps, j, initial, acc).0)
    decreases PipelinesSize(ps[j..]), 0
  {
    if j < |ps| {
      PipelinesSizeSuffix(ps, j);
      assert ps[j].steps[0..] == ps[j].steps;
      ExecuteValid(m, env, ps[j].steps, 0, initial, []);
      var (m1, r) := Execute(m, env, ps[j].steps, 0, initial, []);
      if !(r.Err? && r.error.Panic?) {
        RunSubValid(m1, env, ps, j + 1, initial, acc + [r]);
      }
    }
  }

  /**
   * A run that ends with a WGSL or a CPU step and succeeds ends with the one
   * output that step declares.
   */
  lemma {:induction false} ExecuteEndsAsDeclared(m: GenModel, env: GpuContents, steps: seq<PipelineStep>, i: nat,
                                                   state: ProcessingState, pending: seq<Encoder>)
    requires GenValid(m) && i < |steps| && EndsWithSingle(steps)
    ensures var r := Execute(m, env, steps, i, state, pending).1;
      r.Ok? ==> |r.value.0| == 1 && DeclaredBy(r.value.0[0], steps)
    decreases |steps| - i
  {
    match steps[i]
    case Wgsl(wgsl, params, outputWidth, outputHeight) =>
      WgslStepFacts(m, state, wgsl, params, i, outputWidth, outputHeight);
      var (m1, st, encs) := WgslStep(m, state, wgsl, params, i, outputWidth, outputHeight);
      if i + 1 < |steps| {
        ExecuteEndsAsDeclared(m1, env, steps, i + 1, st, pending + encs);
      }
    case CpuFunc(func, params, outputWidth, outputHeight) =>
      CpuFuncStepFacts(m, env, state, func, params, outputWidth, outputHeight, pending);
      var (m1, r) := CpuFuncStep(m, env, state, func, params, outputWidth, outputHeight, pending);
      if r.Ok? && i + 1 < |steps| {
        ExecuteEndsAsDeclared(m1, env, steps, i + 1, r.value.0, r.value.1);
      }
    case Parallel(ps) =>
      ParallelValid(m, env, ps, state, pending);
      var (m1, r) := ParallelStep(m, env, ps, state, pending);
      if r.Ok? {
        ExecuteEndsAsDeclared(m1, env, steps, i + 1, r.value.0, Remaining(ps, pending) + r.value.1);
      }
  }

  /** A sub-pipeline's result as its last step declares it, when that is a WGSL or a CPU step and the run succeeded. */
  predicate SubResultDeclared(r: StepResult, steps: seq<PipelineStep>)
  {
    EndsWithSingle(steps) && r.Ok? ==> |r.value.0| == 1 && DeclaredBy(r.value.0[0], steps)
  }

  /** `r` holds `acc`, then one result per sub-pipeline from `j` on, each as its steps declare. */
  predicate SubResultsShaped(r: Result<seq<StepResult>, Error>, ps: seq<Builder>, j: nat, acc: seq<StepResult>)
    requires j <= |ps|
  {
    && (r.Err? ==> r.error.Panic?)
    && (r.Ok? ==>
          && |r.value| == |acc| + |ps| - j && r.value[..|acc|] == acc
          && forall k :: j <= k < |ps| ==> SubResultDeclared(r.value[|acc| + k - j], ps[k].steps))
  }

  /** One more result as declared, at the front of the rest, extends the shape by one. */
  lemma SubResultsShapedStep(r: Result<seq<StepResult>, Error>, ps: seq<Builder>, j: nat,
                             acc: seq<StepResult>, first: StepResult)
    requires j < |ps| && SubResultDeclared(first, ps[j].steps)
    requires SubResultsShaped(r, ps, j + 1, acc + [first])
    ensures SubResultsShaped(r, ps, j, acc)
  {
    if r.Ok? {
      assert r.value[..|acc| + 1][..|acc|] == r.value[..|acc|];
      assert r.value[|acc|] == (acc + [first])[|acc|] == first;
    }
  }

  /**
   * The sub-pipelines' results come in sub-pipeline order, only a panic
   * stops the collection, and a sub-pipeline that ends with a single step
   * and succeeds contributes the one output that step declares.
   */
  lemma {:induction false} RunSubShape(m: GenModel, env: GpuContents, ps: seq<Builder>, j: nat,
                                       initial: ProcessingState, acc: seq<StepResult>)
    requires GenValid(m) && j <= |ps|
    ensures SubResultsShaped(RunSubPipelines(m, env, ps, j, initial, acc).1, ps, j, acc)
    decreases |ps| - j
  {
    if j < |ps| {
      ExecuteValid(m, env, ps[j].steps, 0, initial, []);
      var (m1, r) := Execute(m, env, ps[j].steps, 0, initial, []);
      if EndsWithSingle(ps[j].steps) {
        ExecuteEndsAsDeclared(m, env, ps[j].steps, 0, initial, []);
      }
      assert SubResultDeclared(r, ps[j].steps);
      if !(r.Err? && r.error.Panic?) {
        RunSubShape(m1, env, ps, j + 1, initial, acc + [r]);
        SubResultsShapedStep(RunSubPipelines(m1, env, ps, j + 1, initial, acc + [r]).1, ps, j, acc, r);
      }
    }
  }

  /** Successful single-output results of sub-pipelines that each end with a single step combine to one output each, in order. */
  lemma CombinedAsDeclared(rs: seq<StepResult>, ps: seq<Builder>)
    requires |rs| == |ps|
    requires forall k :: 0 <= k < |ps| ==> EndsWithSingle(ps[k].steps)
    requires forall k :: 0 <= k < |rs| ==> SubResultDeclared(rs[k], ps[k].steps)
    requires Combine(rs, 0, [], []).Ok?
    ensures var st := Combine(rs, 0, [], []).value.0;
      |st| == |ps| && forall k :: 0 <= k < |ps| ==> DeclaredBy(st[k], ps[k].steps)
  {
    CombineSpec(rs, 0, [], []);
    assert rs[0..] == rs;
    forall i | 0 <= i < |rs| ensures rs[i].Ok? && |rs[i].value.0| == 1 {
      assert SubResultDeclared(rs[i], ps[i].steps);
    }
    OkStatesOfSingles(rs);
  }

  /**
   * A parallel step whose sub-pipelines each end with a WGSL or a CPU step
   * and that succeeds gives one output per sub-pipeline, in sub-pipeline
   * order, each as its sub-pipeline's last step declares.
   */
  lemma ParallelShape(m: GenModel, env: GpuContents, ps: seq<Builder>, state: ProcessingState, pending: seq<Encoder>)
    requires GenValid(m)
    requires forall k :: 0 <= k < |ps| ==> EndsWithSingle(ps[k].steps)
    ensures var r := ParallelStep(m, env, ps, state, pending).1;
      r.Ok? ==> |r.value.0| == |ps| && forall k :: 0 <= k < |ps| ==> DeclaredBy(r.value.0[k], ps[k].steps)
  {
    FreshAndEnqueueKeepValid(m, 0, Submit(pending));
    var m1 := if HasCpuProcessing(ps) && pending != [] then Enqueued(m, Submit(pending)) else m;
    RunSubShape(m1, env, ps, 0, state, []);
    var results := RunSubPipelines(m1, env, ps, 0, state, []).1;
    if results.Ok? && Combine(results.value, 0, [], []).Ok? {
      ShapedAllDeclared(results.value, ps);
      CombinedAsDeclared(results.value, ps);
    }
  }

  /** The results of a whole run, so shaped, are each as their sub-pipeline declares. */
  lemma ShapedAllDeclared(rs: seq<StepResult>, ps: seq<Builder>)
    requires SubResultsShaped(Ok(rs), ps, 0, [])
    ensures |rs| == |ps| && forall k :: 0 <= k < |rs| ==> SubResultDeclared(rs[k], ps[k].steps)
  {
    forall k | 0 <= k < |rs| ensures SubResultDeclared(rs[k], ps[k].steps) {
      assert rs[|rs[..0]| + k - 0] == rs[k];
    }
  }

  /** An empty parallel step gives no outputs and no encoders and leaves the generator as it was. */
  lemma ParallelOfNothing(m: GenModel, env: GpuContents, state: ProcessingState, pending: seq<Encoder>)
    ensures ParallelStep(m, env, [], state, pending) == (m, Ok(([], [])))
    ensures Remaining([], pending) == pending
  {
  }

  /**
   * The pending encoders are submitted before the sub-pipelines run, and
   * taken from the caller, exactly when some sub-pipeline has a CPU step of
   * its own and there are some; a CPU step inside a nested parallel step
   * does not count.
   */
  lemma ParallelSubmitsPending(ps: seq<Builder>, pending: seq<Encoder>,
                               func: CompiledFunc, params: Option<seq<u8>>, w: u32, h: u32)
    ensures Remaining(ps, pending) == [] || Remaining(ps, pending) == pending
    ensures Remaining(ps, pending) != pending <==>
              pending != [] && exists j, k :: 0 <= j < |ps| && 0 <= k < |ps[j].steps| && ps[j].steps[k].CpuFunc?
    ensures HasCpuProcessing([Builder([CpuFunc(func, params, w, h)])])
    ensures !HasCpuProcessing([Builder([Parallel([Builder([CpuFunc(func, params, w, h)])])])])
  {
    var inner := Builder([CpuFunc(func, params, w, h)]);
    assert [inner][0].steps[0].CpuFunc?;
    var outer := [Builder([Parallel([inner])])];
    assert forall j, k :: 0 <= j < |outer| && 0 <= k < |outer[j].steps| ==> outer[j].steps[k] == Parallel([inner]);
  }

  /**
   * `generate` on a builder that ends with a WGSL or a CPU step: once the
   * steps succeed it can only fail to map the readback buffer or, at a CPU
   * end, on a function whose data is not one float per declared channel;
   * a WGSL end gives the packed bytes of its declared size, a CPU end four
   * bytes per declared pixel.
   */
  lemma GenerateSingleEnd(m: GenModel, env: GpuContents, post: PipelineHandle, builder: Builder)
    requires GenValid(m) && EndsWithSingle(builder.steps)
    ensures var r := GenerateResult(m, env, post, builder).1;
      var last := LastStep(builder.steps);
      && (Execute(m, env, builder.steps, 0, [], []).1.Ok? && r.Err? ==>
            (last.Wgsl? && r.error == MapFailed) || (last.CpuFunc? && r.error == Panic(ZIP_EQ_PANIC)))
      && (r.Ok? && last.Wgsl? ==> |r.value| == U32BufferSize(last.outputWidth, last.outputHeight) as nat)
      && (r.Ok? && last.CpuFunc? ==> |r.value| == 4 * last.outputWidth as nat * last.outputHeight as nat)
  {
    ExecuteValid(m, env, builder.steps, 0, [], []);
    ExecuteEndsAsDeclared(m, env, builder.steps, 0, [], []);
    var (m1, r) := Execute(m, env, builder.steps, 0, [], []);
    if r.Ok? {
      var m2 := Enqueued(m1, Submit(r.value.1));
      FreshAndEnqueueKeepValid(m1, 0, Submit(r.value.1));
      FinalStepFacts(m2, env, post, r.value.0);
      var o := r.value.0[0];
      if o.Gpu? {
        GpuBytesFacts(m2, env, post, o.texture, o.width, o.height);
      } else {
        CpuBytesFacts(o.data, o.width, o.height);
      }
    }
  }

  /** A builder with no steps fails: its final state is empty. */
  lemma GenerateEmptyFails(m: GenModel, env: GpuContents, post: PipelineHandle)
    ensures GenerateResult(m, env, post, New()) == (Enqueued(m, Submit([])), Err(WrongFinalStateLength(0)))
  {
  }

  /**
   * A builder that ends with a parallel step of single-output sub-pipelines
   * fails unless there is exactly one of them.
   */
  lemma GenerateParallelEnd(m: GenModel, env: GpuContents, post: PipelineHandle, builder: Builder)
    requires GenValid(m) && |builder.steps| > 0 && LastStep(builder.steps).Parallel?
    requires var ps := LastStep(builder.steps).pipelines;
      forall k :: 0 <= k < |ps| ==> EndsWithSingle(ps[k].steps)
    ensures var r := GenerateResult(m, env, post, builder).1;
      var n := |LastStep(builder.steps).pipelines|;
      n != 1 ==> r.Err? && (r.error == WrongFinalStateLength(n) || Execute(m, env, builder.steps, 0, [], []).1.Err?)
  {
    ExecuteLastParallel(m, env, builder.steps, 0, [], []);
  }

  /** A run that ends with a parallel step of single-output sub-pipelines ends with one output per sub-pipeline. */
  lemma {:induction false} ExecuteLastParallel(m: GenModel, env: GpuContents, steps: seq<PipelineStep>, i: nat,
                                               state: ProcessingState, pending: seq<Encoder>)
    requires GenValid(m) && i < |steps| && LastStep(steps).Parallel?
    requires var ps := LastStep(steps).pipelines;
      forall k :: 0 <= k < |ps| ==> EndsWithSingle(ps[k].steps)
    ensures var r := Execute(m, env, steps, i, state, pending).1;
      r.Ok? ==> |r.value.0| == |LastStep(steps).pipelines|
    decreases |steps| - i
  {
    match steps[i]
    case Wgsl(wgsl, params, outputWidth, outputHeight) =>
      WgslStepFacts(m, state, wgsl, params, i, outputWidth, outputHeight);
      var (m1, st, encs) := WgslStep(m, state, wgsl, params, i, outputWidth, outputHeight);
      ExecuteLastParallel(m1, env, steps, i + 1, st, pending + encs);
    case CpuFunc(func, params, outputWidth, outputHeight) =>
      CpuFuncStepFacts(m, env, state, func, params, outputWidth, outputHeight, pending);
      var (m1, r) := CpuFuncStep(m, env, state, func, params, outputWidth, outputHeight, pending);
      if r.Ok? {
        ExecuteLastParallel(m1, env, steps, i + 1, r.value.0, r.value.1);
      }
    case Parallel(ps) =>
      ParallelValid(m, env, ps, state, pending);
      var (m1, r) := ParallelStep(m, env, ps, state, pending);
      if i + 1 < |steps| {
        if r.Ok? {
          ExecuteLastParallel(m1, env, steps, i + 1, r.value.0, Remaining(ps, pending) + r.value.1);
        }
      } else {
        ParallelShape(m, env, ps, state, pending);
      }
  }

  // ---------------------------------------------------------------------
  // The imperative code.

  /** `execute_pipeline`. */
  method ExecutePipeline(g: ImageGenerator, env: GpuContents, steps: seq<PipelineStep>, initial: ProcessingState)
    returns (r: StepResult)
    requires g.Valid()
    modifies g, g.textureCache, g.pipelineCache, g.bufferCache
    ensures g.Valid()
    ensures (g.Model(), r) == Execute(old(g.Model()), env, steps, 0, initial, [])
    decreases StepsSize(steps), 2
  {
    var state := initial;
    var allEncoders: seq<Encoder> := [];
    var i := 0;
    while i < |steps|
      invariant i <= |steps|
      invariant g.Valid()
      invariant Execute(g.Model(), env, steps, i, state, allEncoders) == Execute(old(g.Model()), env, steps, 0, initial, [])
    {
      match steps[i] {
        case Wgsl(wgsl, params, outputWidth, outputHeight) =>
          var newState, encoders := HandleWgslStep(g, state, wgsl, params, i, outputWidth, outputHeight);
          state, allEncoders := newState, allEncoders + encoders;
        case CpuFunc(func, params, outputWidth, outputHeight) =>
          var res := HandleCpuFuncStep(g, env, state, func, params, outputWidth, outputHeight, allEncoders);
          if res.Err? {
            return Err(res.error);
          }
          state, allEncoders := res.value.0, res.value.1;
        case Parallel(ps) =>
          StepsSizeSuffix(steps, i);
          StepsSizeBound(steps, i);
          var res, remaining := HandleParallelStep(g, env, ps, state, allEncoders);
          if res.Err? {
            return Err(res.error);
          }
          state, allEncoders := res.value.0, remaining + res.value.1;
      }
      i := i + 1;
    }
    r := Ok((state, allEncoders));
  }

  /** `handle_parallel_step`; `remaining` is what is left of the caller's pending encoders. */
  method HandleParallelStep(g: ImageGenerator, env: GpuContents, ps: seq<Builder>, state: ProcessingState,
                            pending: seq<Encoder>)
    returns (r: StepResult, remaining: seq<Encoder>)
    requires g.Valid()
    modifies g, g.textureCache, g.pipelineCache, g.bufferCache
    ensures g.Valid()
    ensures (g.Model(), r) == ParallelStep(old(g.Model()), env, ps, state, pending)
    ensures remaining == Remaining(ps, pending)
    decreases PipelinesSize(ps), 1
  {
    remaining := pending;
    if HasCpuProcessing(ps) && pending != [] {
      g.Enqueue(Submit(pending));
      remaining := [];
    }
    ghost var m1 := g.Model();
    assert ps[0..] == ps;
    var results: seq<StepResult> := [];
    var j := 0;
    while j < |ps|
      invariant j <= |ps|
      invariant g.Valid()
      invariant RunSubPipelines(g.Model(), env, ps, j, state, results) == RunSubPipelines(m1, env, ps, 0, state, [])
    {
      PipelinesSizeSuffix(ps, j);
      PipelinesSizeBound(ps, j);
      var res := ExecutePipeline(g, env, ps[j].steps, state);
      assert ps[j].steps[0..] == ps[j].steps;
      if res.Err? && res.error.Panic? {
        return Err(res.error), remaining;
      }
      results := results + [res];
      j := j + 1;
    }
    r := CombineResults(results);
  }

  /** The loop that appends every sub-pipeline's state and encoders, in order, or returns the first error. */
  method CombineResults(results: seq<StepResult>) returns (r: StepResult)
    ensures r == Combine(results, 0, [], [])
  {
    var combinedState: ProcessingState := [];
    var resultEncoders: seq<Encoder> := [];
    var k := 0;
    while k < |results|
      invariant k <= |results|
      invariant Combine(results, k, combinedState, resultEncoders) == Combine(results, 0, [], [])
    {
      if results[k].Err? {
        return Err(results[k].error);
      }
      combinedState := combinedState + results[k].value.0;
      resultEncoders := resultEncoders + results[k].value.1;
      k := k + 1;
    }
    r := Ok((combinedState, resultEncoders));
  }

  /** `generate`. */
  method Generate(g: ImageGenerator, env: GpuContents, builder: Builder) returns (r: Result<seq<u8>, Error>)
    requires g.Valid()
    modifies g, g.textureCache, g.pipelineCache, g.bufferCache
    ensures g.Valid()
    ensures (g.Model(), r) == GenerateResult(old(g.Model()), env, g.postProcessPipeline, builder)
  {
    var run := ExecutePipeline(g, env, builder.steps, []);
    if run.Err? {
      return Err(run.error);
    }
    var (finalState, encoders) := run.value;
    g.Enqueue(Submit(encoders));
    if |finalState| != 1 {
      return Err(WrongFinalStateLength(|finalState|));
    }
    r := HandleFinalProcess(g, env, finalState);
  }
}
