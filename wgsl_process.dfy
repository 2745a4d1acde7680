/**
 * `handle_wgsl_step`: one compute-shader step. Every input becomes a texture
 * view (a CPU input is first uploaded into a cached texture), the output
 * texture and the pipeline come from the caches, bind group 0 holds the
 * inputs, the output and the optional sampler, bind group 1 the optional
 * parameters, and one compute pass covering the output is recorded.
 */
module WgslProcess {
  import opened Wrappers
  import opened MachineInts
  import opened GpuTypes
  import opened Lru
  import opened GpuArith
  import opened GeneratorCore

  /** Usage of a texture a CPU input is uploaded into. */
  const UPLOAD_USAGE: set<TextureUsage> := {TextureBinding, TextureCopyDst}
  /** Usage of a step's output texture. */
  const OUTPUT_USAGE: set<TextureUsage> := {TextureBinding, StorageBinding, TextureCopySrc}

  function UploadKey(step: nat, width: u32, height: u32): TextureCacheKey
  {
    TextureCacheKey(step, width, height, Rgba32Float, UPLOAD_USAGE)
  }

  function OutputKey(step: nat, width: u32, height: u32): TextureCacheKey
  {
    TextureCacheKey(step, width, height, Rgba32Float, OUTPUT_USAGE)
  }

  /**
   * The texture one input is read from: a GPU input's own texture, or the
   * cached upload texture of the step, after queueing a write of the CPU
   * floats with a pitch of `16 * width` bytes.
   */
  function PrepareInput(m: GenModel, input: StepOutput, step: nat): (GenModel, Texture)
  {
    match input
    case Gpu(t, _, _) => (m, t)
    case Cpu(data, w, h) =>
      var (m1, t) := TextureLookup(m, UploadKey(step, w, h));
      (Enqueued(m1, WriteTexture(t, data, RowSize(w), w, h)), t)
  }

  /** The input loop from index `i` on, with `views` the views made so far. */
  function PrepareFrom(m: GenModel, state: ProcessingState, step: nat, i: nat, views: seq<Texture>): (r: (GenModel, seq<Texture>))
    requires i <= |state|
    ensures |r.1| == |views| + |state| - i && r.1[..|views|] == views
    decreases |state| - i
  {
    if i == |state| then (m, views)
    else
      var (m1, t) := PrepareInput(m, state[i], step);
      PrepareFrom(m1, state, step, i + 1, views + [t])
  }

  /** The number of CPU entries of `state` from index `i` on. */
  function CpuCountFrom(state: ProcessingState, i: nat): nat
    requires i <= |state|
    decreases |state| - i
  {
    if i == |state| then 0 else (if state[i].Cpu? then 1 else 0) + CpuCountFrom(state, i + 1)
  }

  /**
   * Bind group 0: the input array at binding 0 when there are inputs, then
   * the output texture, then the sampler if the shader has one. The
   * bindings are numbered 0, 1, 2, ... without gaps.
   */
  function GroupZero(views: seq<Texture>, output: Texture, sampler: Option<Sampler>): (g: seq<BindEntry>)
    ensures |g| == (if |views| > 0 then 1 else 0) + 1 + (if sampler.Some? then 1 else 0)
    ensures forall k :: 0 <= k < |g| ==> g[k].binding == k
    ensures |views| > 0 ==> g[0].resource == TextureViewArray(views)
    ensures g[if |views| > 0 then 1 else 0].resource == TextureView(output)
    ensures sampler.Some? ==> g[|g| - 1].resource == SamplerBinding(sampler.value)
    ensures forall k :: 0 <= k < |g| ==> g[k].resource.TextureViewArray? ==> k == 0 && |views| > 0
  {
    var inputs := if |views| > 0 then [BindEntry(0, TextureViewArray(views))] else [];
    var out := [BindEntry(if |views| > 0 then 1 else 0, TextureView(output))];
    var samplers := if sampler.Some? then [BindEntry(if |views| > 0 then 2 else 1, SamplerBinding(sampler.value))] else [];
    inputs + out + samplers
  }

  /** The pipeline cache key of a WGSL step with `n` inputs. */
  function StepKey(wgsl: CompiledWgsl, n: nat, params: Option<seq<u8>>): (key: PipelineCacheKey)
    ensures key.inputTextureCount == n && key.hasStorage == params.Some? && key.hasSampler == wgsl.sampler.Some?
    ensures key.id == wgsl.id
  {
    PipelineCacheKey(wgsl.id, n, params.Some?, wgsl.sampler.Some?)
  }

  /** `handle_wgsl_step` on the value of the generator: the new model, the new state, the encoders. */
  function WgslStep(m: GenModel, state: ProcessingState, wgsl: CompiledWgsl, params: Option<seq<u8>>,
                    step: nat, outputWidth: u32, outputHeight: u32): (GenModel, ProcessingState, seq<Encoder>)
  {
    var (m1, views) := PrepareFrom(m, state, step, 0, []);
    var (m2, output) := TextureLookup(m1, OutputKey(step, outputWidth, outputHeight));
    var (m3, cached) := PipelineLookup(m2, StepKey(wgsl, |views|, params), wgsl.shader);
    var group0 := GroupZero(views, output, wgsl.sampler);
    var (m4, group1) :=
      if params.Some? then
        var (m', b) := FreshBuffer(m3, |params.value|);
        (m', Some([BindEntry(0, ParamsBuffer(b, params.value))]))
      else (m3, None);
    var pass := ComputePass(cached.pipeline, group0, group1,
                            Workgroups(WorkgroupCount(outputWidth), WorkgroupCount(outputHeight), 1));
    (m4, [Gpu(output, outputWidth, outputHeight)], [Encoder([pass])])
  }

  lemma PrepareInputFacts(m: GenModel, input: StepOutput, step: nat)
    requires GenValid(m)
    ensures var (m', t) := PrepareInput(m, input, step);
      && GenValid(m')
      && m'.pipelines == m.pipelines && m'.buffers == m.buffers && m'.nextId >= m.nextId
      && (input.Gpu? ==> m' == m && t == input.texture)
      && (input.Cpu? ==>
            && t.width == input.width && t.height == input.height
            && m'.queue == m.queue + [WriteTexture(t, input.data, RowSize(input.width), input.width, input.height)])
  {
    if input.Cpu? {
      TextureLookupFacts(m, UploadKey(step, input.width, input.height));
    }
  }

  /** The input loop keeps the generator valid and touches neither the pipeline nor the buffer cache. */
  lemma {:induction false} PrepareFromValid(m: GenModel, state: ProcessingState, step: nat, i: nat, views: seq<Texture>)
    requires GenValid(m) && i <= |state|
    ensures var m' := PrepareFrom(m, state, step, i, views).0;
      GenValid(m') && m'.pipelines == m.pipelines && m'.buffers == m.buffers && m'.nextId >= m.nextId
    decreases |state| - i
  {
    if i < |state| {
      var (m1, t) := PrepareInput(m, state[i], step);
      PrepareInputFacts(m, state[i], step);
      PrepareFromValid(m1, state, step, i + 1, views + [t]);
    }
  }

  /** A view made for `input`: its own texture, or an upload texture of its size. */
  predicate ViewMatches(input: StepOutput, t: Texture)
  {
    && (input.Gpu? ==> t == input.texture)
    && (input.Cpu? ==> t.width == input.width && t.height == input.height)
  }

  lemma PrepareInputView(m: GenModel, input: StepOutput, step: nat)
    requires GenValid(m)
    ensures GenValid(PrepareInput(m, input, step).0)
    ensures ViewMatches(input, PrepareInput(m, input, step).1)
  {
    PrepareInputFacts(m, input, step);
  }

  /**
   * The input loop makes exactly one view per state entry, in state order:
   * a GPU entry's own texture, or an upload texture of the CPU entry's size.
   */
  lemma {:induction false} PrepareFromViews(m: GenModel, state: ProcessingState, step: nat, i: nat, views: seq<Texture>)
    requires GenValid(m) && i <= |state|
    ensures var vs := PrepareFrom(m, state, step, i, views).1;
      forall j :: i <= j < |state| ==> ViewMatches(state[j], vs[|views| + j - i])
    decreases |state| - i
  {
    if i < |state| {
      var (m1, t) := PrepareInput(m, state[i], step);
      PrepareInputView(m, state[i], step);
      PrepareFromViews(m1, state, step, i + 1, views + [t]);
      var vs := PrepareFrom(m1, state, step, i + 1, views + [t]).1;
      assert vs == PrepareFrom(m, state, step, i, views).1;
      assert vs[..|views| + 1] == views + [t];
      assert vs[|views|] == t;
      forall j | i < j < |state|
        ensures ViewMatches(state[j], vs[|views| + j - i])
      {
        assert |views + [t]| + j - (i + 1) == |views| + j - i;
      }
    }
  }

  /** `after` is `before` followed by `count` uploads, each with a pitch of `16 * width` bytes. */
  predicate UploadsAppended(before: seq<QueueOp>, after: seq<QueueOp>, count: nat)
  {
    && |after| == |before| + count && after[..|before|] == before
    && forall q :: |before| <= q < |after| ==>
         after[q].WriteTexture? && after[q].bytesPerRow == RowSize(after[q].width)
  }

  /** Uploads appended after uploads appended are uploads appended. */
  lemma UploadsAppendedTrans(a: seq<QueueOp>, b: seq<QueueOp>, c: seq<QueueOp>, m: nat, n: nat)
    requires UploadsAppended(a, b, m) && UploadsAppended(b, c, n)
    ensures UploadsAppended(a, c, m + n)
  {
    assert c[..|b|][..|a|] == c[..|a|];
    forall q | |a| <= q < |c|
      ensures c[q].WriteTexture? && c[q].bytesPerRow == RowSize(c[q].width)
    {
      if q < |b| {
        assert c[q] == c[..|b|][q];
      }
    }
  }

  /** The input loop queues one upload per CPU entry, each with a pitch of `16 * width` bytes. */
  lemma {:induction false} PrepareFromQueue(m: GenModel, state: ProcessingState, step: nat, i: nat, views: seq<Texture>)
    requires GenValid(m) && i <= |state|
    ensures UploadsAppended(m.queue, PrepareFrom(m, state, step, i, views).0.queue, CpuCountFrom(state, i))
    decreases |state| - i
  {
    if i < |state| {
      var (m1, t) := PrepareInput(m, state[i], step);
      PrepareInputFacts(m, state[i], step);
      PrepareFromQueue(m1, state, step, i + 1, views + [t]);
      var m' := PrepareFrom(m1, state, step, i + 1, views + [t]).0;
      assert UploadsAppended(m.queue, m1.queue, if state[i].Cpu? then 1 else 0);
      UploadsAppendedTrans(m.queue, m1.queue, m'.queue, if state[i].Cpu? then 1 else 0, CpuCountFrom(state, i + 1));
    }
  }

  /**
   * The step makes one view per input, and the pipeline key records that
   * count, whether there are parameters and whether there is a sampler.
   */
  lemma WgslStepKey(m: GenModel, state: ProcessingState, wgsl: CompiledWgsl, params: Option<seq<u8>>, step: nat)
    requires GenValid(m)
    ensures |PrepareFrom(m, state, step, 0, []).1| == |state|
    ensures StepKey(wgsl, |PrepareFrom(m, state, step, 0, []).1|, params)
         == PipelineCacheKey(wgsl.id, |state|, params.Some?, wgsl.sampler.Some?)
  {
    PrepareFromValid(m, state, step, 0, []);
    PrepareFromViews(m, state, step, 0, []);
  }

  /**
   * The result of a WGSL step: the generator stays valid, the new state is
   * one GPU output of the declared size whose texture has that size, and
   * there is exactly one encoder, holding one compute pass whose dispatch
   * covers the output with 16x16 workgroups. Group 1 exists exactly when
   * there are parameters, and then binds a fresh buffer of their bytes.
   */
  lemma WgslStepFacts(m: GenModel, state: ProcessingState, wgsl: CompiledWgsl, params: Option<seq<u8>>,
                      step: nat, outputWidth: u32, outputHeight: u32)
    requires GenValid(m)
    ensures var (m', st, encs) := WgslStep(m, state, wgsl, params, step, outputWidth, outputHeight);
      && GenValid(m')
      && |st| == 1 && st[0].Gpu? && st[0].width == outputWidth && st[0].height == outputHeight
      && st[0].texture.width == outputWidth && st[0].texture.height == outputHeight
      && |encs| == 1 && |encs[0].commands| == 1 && encs[0].commands[0].ComputePass?
      && var pass := encs[0].commands[0];
         && pass.workgroups == Workgroups(WorkgroupCount(outputWidth), WorkgroupCount(outputHeight), 1)
         && (pass.group1.Some? <==> params.Some?)
         && (params.Some? ==>
               && |pass.group1.value| == 1 && pass.group1.value[0].binding == 0
               && pass.group1.value[0].resource.ParamsBuffer?
               && pass.group1.value[0].resource.contents == params.value
               && pass.group1.value[0].resource.buffer.size == |params.value|)
         && |pass.group0| == (if |state| > 0 then 1 else 0) + 1 + (if wgsl.sampler.Some? then 1 else 0)
         && pass.group0[if |state| > 0 then 1 else 0].resource == TextureView(st[0].texture)
  {
    PrepareFromValid(m, state, step, 0, []);
    PrepareFromViews(m, state, step, 0, []);
    var (m1, views) := PrepareFrom(m, state, step, 0, []);
    TextureLookupFacts(m1, OutputKey(step, outputWidth, outputHeight));
    var (m2, output) := TextureLookup(m1, OutputKey(step, outputWidth, outputHeight));
    PipelineLookupFacts(m2, StepKey(wgsl, |views|, params), wgsl.shader);
  }

  /**
   * Bind group 0 of the pass starts, when there are inputs, with the array
   * of the views the input loop made (see `PrepareFromViews`).
   */
  lemma WgslStepViews(m: GenModel, state: ProcessingState, wgsl: CompiledWgsl, params: Option<seq<u8>>,
                      step: nat, outputWidth: u32, outputHeight: u32)
    requires |state| > 0
    ensures WgslStep(m, state, wgsl, params, step, outputWidth, outputHeight).2[0].commands[0].group0[0]
         == BindEntry(0, TextureViewArray(PrepareFrom(m, state, step, 0, []).1))
  {
  }

  /**
   * Without a sampler, bind group 0 has exactly the bindings of the layout
   * built for a key with as many inputs, with matching kinds; a sampler
   * adds one entry the layout does not declare.
   */
  lemma GroupZeroMatchesLayout(views: seq<Texture>, output: Texture, sampler: Option<Sampler>, key: PipelineCacheKey)
    requires key.inputTextureCount == |views|
    ensures var g := GroupZero(views, output, sampler);
      var layout := PipelineLayout(key)[0];
      && |g| == |layout| + (if sampler.Some? then 1 else 0)
      && (forall k :: 0 <= k < |layout| ==>
            && g[k].binding == layout[k].binding
            && (g[k].resource.TextureViewArray? <==> layout[k].kind == SampledTextureArray)
            && (g[k].resource.TextureView? <==> layout[k].kind == StorageTexture))
  {
    PipelineLayoutBindings(key);
  }

  /**
   * The step binds the pipeline the cache now holds, at the front, under
   * the step's key, and that pipeline's bind group layouts are the ones
   * built for the key.
   */
  lemma WgslStepUsesCachedPipeline(m: GenModel, state: ProcessingState, wgsl: CompiledWgsl, params: Option<seq<u8>>,
                                   step: nat, outputWidth: u32, outputHeight: u32)
    requires GenValid(m) && m.pipelines.maxSize > 0
    ensures var (m', _, encs) := WgslStep(m, state, wgsl, params, step, outputWidth, outputHeight);
      var key := PipelineCacheKey(wgsl.id, |state|, params.Some?, wgsl.sampler.Some?);
      && key in m'.pipelines.entries && |m'.pipelines.order| > 0 && m'.pipelines.order[0] == key
      && m'.pipelines.entries[key].pipeline == encs[0].commands[0].pipeline
      && m'.pipelines.entries[key].bindGroupLayouts == PipelineLayout(key)
  {
    PrepareFromValid(m, state, step, 0, []);
    var (m1, views) := PrepareFrom(m, state, step, 0, []);
    TextureLookupFacts(m1, OutputKey(step, outputWidth, outputHeight));
    var (m2, output) := TextureLookup(m1, OutputKey(step, outputWidth, outputHeight));
    PipelineLookupFacts(m2, StepKey(wgsl, |views|, params), wgsl.shader);
  }

  /**
   * Two CPU inputs of the same size in one step are uploaded into the same
   * cached texture (the key holds the step and the size, not the input), so
   * the second upload replaces the first and both views read the second.
   */
  lemma EqualSizedUploadsShareTexture(m: GenModel, d1: seq<F32>, d2: seq<F32>, w: u32, h: u32, step: nat)
    requires GenValid(m) && m.textures.maxSize > 0
    ensures var (m', vs) := PrepareFrom(m, [Cpu(d1, w, h), Cpu(d2, w, h)], step, 0, []);
      && |vs| == 2 && vs[0] == vs[1]
      && m'.queue == m.queue + [WriteTexture(vs[0], d1, RowSize(w), w, h), WriteTexture(vs[0], d2, RowSize(w), w, h)]
  {
    var state := [Cpu(d1, w, h), Cpu(d2, w, h)];
    var key := UploadKey(step, w, h);
    TextureLookupFacts(m, key);
    var (m1, t1) := TextureLookup(m, key);
    var m1' := Enqueued(m1, WriteTexture(t1, d1, RowSize(w), w, h));
    assert key in m1'.textures.entries && m1'.textures.entries[key] == t1 by {
      assert Invariant(m1.textures);
      assert m1.textures.order[0] == key;
    }
    assert [] + [t1] == [t1];
    assert PrepareFrom(m, state, step, 0, []) == PrepareFrom(m1', state, step, 1, [t1]);
    assert TextureLookup(m1', key).1 == t1;
  }

  /** The input loop of `handle_wgsl_step`. */
  method PrepareInputs(g: ImageGenerator, state: ProcessingState, step: nat) returns (views: seq<Texture>)
    requires g.Valid()
    modifies g, g.textureCache
    ensures g.Valid()
    ensures (g.Model(), views) == PrepareFrom(old(g.Model()), state, step, 0, [])
  {
    views := [];
    var i := 0;
    while i < |state|
      invariant 0 <= i <= |state|
      invariant g.Valid()
      invariant PrepareFrom(g.Model(), state, step, i, views) == PrepareFrom(old(g.Model()), state, step, 0, [])
      decreases |state| - i
    {
      match state[i] {
        case Gpu(t, _, _) =>
          views := views + [t];
        case Cpu(data, w, h) =>
          var t := g.GetOrCreateTexture(step, w, h, Rgba32Float, UPLOAD_USAGE);
          g.Enqueue(WriteTexture(t, data, RowSize(w), w, h));
          views := views + [t];
      }
      i := i + 1;
    }
  }

  /** Bind group 0, pushed entry by entry. */
  method BuildGroupZero(views: seq<Texture>, output: Texture, sampler: Option<Sampler>) returns (group0: seq<BindEntry>)
    ensures group0 == GroupZero(views, output, sampler)
  {
    group0 := [];
    if |views| > 0 {
      group0 := group0 + [BindEntry(0, TextureViewArray(views))];
    }
    group0 := group0 + [BindEntry(if |views| == 0 then 0 else 1, TextureView(output))];
    if sampler.Some? {
      group0 := group0 + [BindEntry(if |views| == 0 then 1 else 2, SamplerBinding(sampler.value))];
    }
  }

  /** `handle_wgsl_step`. */
  method HandleWgslStep(g: ImageGenerator, state: ProcessingState, wgsl: CompiledWgsl, params: Option<seq<u8>>,
                        step: nat, outputWidth: u32, outputHeight: u32)
    returns (newState: ProcessingState, encoders: seq<Encoder>)
    requires g.Valid()
    modifies g, g.textureCache, g.pipelineCache
    ensures g.Valid()
    ensures (g.Model(), newState, encoders) == WgslStep(old(g.Model()), state, wgsl, params, step, outputWidth, outputHeight)
  {
    var views := PrepareInputs(g, state, step);
    var output := g.GetOrCreateTexture(step, outputWidth, outputHeight, Rgba32Float, OUTPUT_USAGE);
    var key := PipelineCacheKey(wgsl.id, |views|, params.Some?, wgsl.sampler.Some?);
    var cached := g.GetOrCreatePipeline(key, wgsl.shader);
    var group0 := BuildGroupZero(views, output, wgsl.sampler);
    var group1: Option<seq<BindEntry>> := None;
    if params.Some? {
      var b := g.CreateBuffer(|params.value|);
      group1 := Some([BindEntry(0, ParamsBuffer(b, params.value))]);
    }
    var pass := ComputePass(cached.pipeline, group0, group1,
                            Workgroups(WorkgroupCount(outputWidth), WorkgroupCount(outputHeight), 1));
    newState := [Gpu(output, outputWidth, outputHeight)];
    encoders := [Encoder([pass])];
  }
}
