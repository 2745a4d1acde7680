# Aperio compositing core in Dafny

Aperio composites video frames from layers. Each layer is an object generator
plus a chain of filters, and the layers are blended back to front. This project
models the parts of the repository whose logic is independent of the GPU
driver, the Python runtime and the UI, and proves what they promise.

- **GPU step pipeline** (`gpu_util`). `ImageGenerateBuilder` assembles a list of
  `Wgsl | CpuFunc | Parallel` steps. `ImageGenerator` runs them:
  - `execute_pipeline` threads a processing state through the steps and collects encoders;
  - `handle_wgsl_step`, `handle_cpu_func_step` and `handle_parallel_step` handle one step each;
  - `generate` needs exactly one final output and turns it into bytes (`handle_final_process`);
  - three LRU caches (pipelines, textures, buffers) share one hit/miss/evict/resize rule.

  The generator is a class (`GeneratorCore.ImageGenerator`) holding three `Lru.LruCache`
  objects. Each of its methods is proved against a pure function over a `GenModel` value:
  the three cache states, the next fresh handle id, and the log of what was put on the GPU
  queue. Textures, buffers, shader modules and pipelines are opaque handles with fresh ids.
  Encoders are values listing their commands. What a readback yields, and whether mapping a
  buffer fails, come from an uninterpreted `GpuContents` environment indexed by queue length.
  `f32` values are their 32 bits (`F32(bits: u32)`), so `bytemuck` casts are exact
  little-endian regroupings. The `u32` size arithmetic wraps modulo 2^32, as in a release
  build (`MachineInts.Wrap32`).
- **CPU compositor in Python** (`aperio_plugin`). `PluginManager` is a class whose
  dictionaries the decorator, `register_sub_plugin` and `__load_plugins` update.
  `make_frame` validates its arguments, runs each layer's generator and filters, checks
  shapes and composites layer by layer, and `make_frames` returns frames in frame order.
  Their meaning is given by pure functions in `Compositing`. The Taichi kernels
  (`AperioTaichi`) are methods over `array2`, with values over reals.
- **Small conversions and rules**:
  - the JSON deep merge of `app_config.rs`;
  - the `From` conversion of `shared_texture.rs`;
  - the Vulkan format table, memory-type search, device search and plane assembly of `texture_to_native/linux.rs`;
  - the uv argument builders and install decisions of `python/utils.rs`;
  - the plugin base classes;
  - `getPlatform.ts`;
  - the memoising renderer store of `store.ts`.

Choices where the repository is not consistent with itself:

- **Pipeline cache key.** `wgsl_process.rs` builds the key with a `has_sampler` field, and
  the model follows it (`WgslProcess.StepKey`). The bind group layout built in
  `image_generator.rs` has no sampler entry. `WgslProcess.GroupZeroMatchesLayout` proves that
  group 0 matches that layout exactly when the shader has no sampler. A sampler adds one
  entry the layout does not declare.
- **Filters.** The design describes filters as descriptors whose data dependencies the
  backend resolves. The Python compositor actually hands each filter the previous stage's
  frame. The model follows the code (`Compositing.ApplyEffects`).
- **Plugin construction.** `__load_plugins` calls `plugin_cls(self)` with one argument, but
  `MainPluginBase.__init__` also takes a generator. So whether a constructor returns or
  raises is an input of the model (`PluginClass.outcome`).
- **Validation order.** The design lists a different error taxonomy. The model keeps the
  source's order of checks and its fixed messages (`Compositing.CheckFailureText`).
- **CPU input uploads.** In one WGSL step, CPU inputs of equal size get the same cached
  upload texture: the cache key holds the step index and the size, not the input index.
  The second upload therefore overwrites the first before the pass runs. This is proved as
  `WgslProcess.EqualSizedUploadsShareTexture`. The per-input label suggests separate
  textures were intended, but the observable result cannot be corrected without guessing
  the intent, so it is recorded here rather than under Findings.

## Model

| member | source | states |
|---|---|---|
| Lru.FirstIndex | src/gpu_util/src/image_generator.rs:301-303 | the position found is the first occurrence of the key, and none exists exactly when the key is absent |
| Lru.Position | src/gpu_util/src/image_generator.rs:301-303 | the linear search of the order list returns that first position |
| Lru.RemoveFirstFacts | src/gpu_util/src/image_generator.rs:299-306 | removing a key from a duplicate-free order list removes exactly that key and shortens the list by one when it was present |
| Lru.TouchKeepsInvariant | src/gpu_util/src/image_generator.rs:299-306 | a hit keeps the map and the size bound, moves the key to the front, keeps every other key, and keeps the invariant (no duplicates, order keys = map keys, length within the bound) |
| Lru.InsertKeepsInvariant | src/gpu_util/src/image_generator.rs:324-335 | a miss adds the key at the front; when the cache was full the back (least recently used) key is the one evicted from order and map; with bound 0 the cache stays empty; the invariant holds |
| Lru.PushFrontFacts | src/gpu_util/src/image_generator.rs:324-326 | inserting a new key and pushing it to the front keeps keys distinct and in step with the map |
| Lru.PopBackFacts | src/gpu_util/src/image_generator.rs:329-333 | popping the back key removes it from both the order list and the map, and keeps them in step |
| Lru.EvictToKeepsMostRecent | src/gpu_util/src/image_generator.rs:228-232 | the eviction loop keeps exactly the most recent `max` keys with their values and restores the invariant |
| Lru.ResizeKeepsMostRecent | src/gpu_util/src/image_generator.rs:223-233 | a resize stores the new bound and keeps the most recently used entries that fit |
| Lru.LruCache.constructor | src/gpu_util/src/image_generator.rs:198-210 | a new cache is empty with the given bound |
| Lru.LruCache.Lookup | src/gpu_util/src/image_generator.rs:299-306 | a hit returns the stored value and moves the key to the front; a miss returns nothing and changes nothing |
| Lru.LruCache.Insert | src/gpu_util/src/image_generator.rs:324-333 | the in-place insert, push_front and pop_back give the state of the insertion rule |
| Lru.LruCache.SetMaxSize | src/gpu_util/src/image_generator.rs:223-233 | the in-place `while` eviction gives the state of the resize rule |
| GeneratorCore.NonZeroCount | src/gpu_util/src/image_generator.rs:486 | a count between 1 and 2^32-1 becomes that `NonZeroU32` |
| GeneratorCore.PipelineLayoutBindings | src/gpu_util/src/image_generator.rs:474-529 | an input array at binding 0 exists iff there are inputs, with count the number of inputs; the output storage texture is at binding 1 with inputs and else 0; a second group with one storage buffer exists iff `has_storage` |
| GeneratorCore.BuildPipelineLayout | src/gpu_util/src/image_generator.rs:474-529 | the pushed layout entries are that layout |
| GeneratorCore.TextureLookupFacts | src/gpu_util/src/image_generator.rs:278-336 | a texture from the cache has the requested size; a hit returns the stored one, a miss a fresh handle; the key ends at the front; the other caches and the queue are untouched |
| GeneratorCore.BufferLookupFacts | src/gpu_util/src/image_generator.rs:339-380 | the same for buffers: the buffer has the requested size, hit or fresh |
| GeneratorCore.PipelineLookupFacts | src/gpu_util/src/image_generator.rs:453-565 | the same for pipelines: the cached pipeline carries the layout built for its key |
| GeneratorCore.ImageGenerator.constructor | src/gpu_util/src/image_generator.rs:198-210 | three empty caches of the default size and no queued work |
| GeneratorCore.ImageGenerator.SetMaxCacheSize | src/gpu_util/src/image_generator.rs:223-233 | only the pipeline cache is resized |
| GeneratorCore.ImageGenerator.SetMaxTextureCacheSize | src/gpu_util/src/image_generator.rs:244-254 | only the texture cache is resized |
| GeneratorCore.ImageGenerator.SetMaxBufferCacheSize | src/gpu_util/src/image_generator.rs:265-275 | only the buffer cache is resized |
| GeneratorCore.ImageGenerator.GetOrCreateTexture | src/gpu_util/src/image_generator.rs:278-336 | the new state and texture are the texture lookup rule |
| GeneratorCore.ImageGenerator.GetOrCreateBuffer | src/gpu_util/src/image_generator.rs:339-380 | the new state and buffer are the buffer lookup rule |
| GeneratorCore.ImageGenerator.GetOrCreatePipeline | src/gpu_util/src/image_generator.rs:453-565 | the new state and pipeline are the pipeline lookup rule; the layout is built only on a miss |
| GeneratorCore.ImageGenerator.CreateBuffer | src/gpu_util/src/image_generator/cpu_func_process.rs:21-26 | an uncached buffer gets a fresh handle and no cache changes |
| GeneratorCore.ImageGenerator.Enqueue | src/gpu_util/src/image_generator.rs:438 | a submit or texture write is appended to the queue log and nothing else changes |
| GpuTypes.CastF32 | src/gpu_util/src/image_generator/cpu_func_process.rs:67 | a byte slice of whole floats reads as a quarter as many floats |
| GpuTypes.F32Bytes | src/gpu_util/src/image_generator/wgsl_process.rs:43 | a float is four bytes |
| GpuTypes.FloatsToBytes | src/gpu_util/src/image_generator/wgsl_process.rs:43 | n floats are 4n bytes |
| GpuTypes.CastF32OfBytes | src/gpu_util/src/image_generator/wgsl_process.rs:43 | reading floats back from their bytes gives the same floats |
| GpuTypes.BytesOfCastF32 | src/gpu_util/src/image_generator/cpu_func_process.rs:67 | writing out the floats read from bytes gives the same bytes |
| GpuArith.WorkgroupsCover | src/gpu_util/src/image_generator/wgsl_process.rs:149 | `(n + 15) / 16` groups of 16 cover n pixels and one fewer would not |
| GpuArith.BytesPerRowPadding | src/gpu_util/src/image_generator/cpu_func_process.rs:18 | the padded pitch is a multiple of 256, at least the row size and less than the row size plus 256 |
| GpuArith.RowSizeAligned | src/gpu_util/src/image_generator/cpu_func_process.rs:17 | even where `16 * width` wraps, a row is whole floats |
| GpuArith.ReadbackSizeAligned | src/gpu_util/src/image_generator/cpu_func_process.rs:17-19 | even with wrap-around, the pitch and the readback size stay multiples of 256, so whole floats |
| GpuArith.RowSizeExact | src/gpu_util/src/image_generator/cpu_func_process.rs:17 | within the texture limit the row size is exactly 16 bytes per texel |
| GpuArith.ReadbackSizeExact | src/gpu_util/src/image_generator/cpu_func_process.rs:19 | within the limits the readback size is exactly pitch times height |
| GpuArith.ExactWithinTextureLimits | src/gpu_util/src/image_generator/cpu_func_process.rs:17-19 | within the limits nothing wraps: row size, pitch, readback size and dispatch are the exact values |
| MachineInts.Wrap32 | src/gpu_util/src/image_generator/cpu_func_process.rs:17-19 | a `u32` result is the exact value modulo 2^32, and the exact value when it fits |
| MachineInts.TruncateToU32 | src/gpu_util/src/texture_to_native/linux.rs:226-232 | `as u32` keeps a value that fits |
| ImageGenerateBuilder.New | src/gpu_util/src/image_generate_builder.rs:43-47 | a new builder has no steps |
| ImageGenerateBuilder.AddWgsl | src/gpu_util/src/image_generate_builder.rs:55-76 | the old steps are a prefix and exactly one WGSL step with the given params and size follows |
| ImageGenerateBuilder.AddParallelWgsl | src/gpu_util/src/image_generate_builder.rs:83-91 | the old steps are a prefix and exactly one parallel step holding the sub-builders in order follows |
| ImageGenerateBuilder.AddFunc | src/gpu_util/src/image_generate_builder.rs:98-117 | the old steps are a prefix and exactly one CPU step with the given params and size follows |
| ImageGenerateBuilder.BranchesShareOnlyTheBase | src/gpu_util/src/image_generate_builder.rs:65-75 | two builders grown from one shared builder both keep the shared steps and each has only its own new step (copy-on-write) |
| ImageGenerateBuilder.ChainOrder | src/gpu_util/src/image_generate_builder.rs:55-117 | any chain of `add_*` calls, from any builder, keeps the builder's steps and then holds exactly one step per call, the one that call describes, in call order |
| ImageGenerateBuilder.ChainFromNew | src/gpu_util/src/image_generate_builder.rs:43-117 | a chain started from `new()` holds exactly its calls' steps, in call order |
| Pipeline.CombineSpec | src/gpu_util/src/image_generator/parallel_process.rs:51-64 | combining succeeds iff every sub-result did, then concatenates states and encoders in order; otherwise it is the first failure in sub-pipeline order |
| Pipeline.CombineResults | src/gpu_util/src/image_generator/parallel_process.rs:51-64 | the appending loop computes that combination |
| Pipeline.ParallelValid | src/gpu_util/src/image_generator/parallel_process.rs:8-65 | a parallel step keeps the generator's invariants |
| Pipeline.RunSubValid | src/gpu_util/src/image_generator/parallel_process.rs:37-48 | running the sub-pipelines, each from the same initial state, keeps the invariants |
| Pipeline.RunSubShape | src/gpu_util/src/image_generator/parallel_process.rs:37-48 | sub-results come in sub-pipeline order, only a panic stops collection, and each successful single-ended sub-pipeline yields what its last step declares |
| Pipeline.CombinedAsDeclared | src/gpu_util/src/image_generator/parallel_process.rs:54-62 | combining such results gives one output per sub-pipeline, in order, each as declared |
| Pipeline.ParallelShape | src/gpu_util/src/image_generator/parallel_process.rs:30-64 | a successful parallel step of single-ended sub-pipelines has one output per sub-pipeline, in sub-pipeline order |
| Pipeline.ParallelOfNothing | src/gpu_util/src/image_generator/parallel_process.rs:51-64 | an empty parallel step gives no outputs and no encoders, and drains nothing |
| Pipeline.ParallelSubmitsPending | src/gpu_util/src/image_generator/parallel_process.rs:16-28 | pending encoders are submitted and drained iff some sub-pipeline has a top-level CPU step and there are some; a CPU step inside a nested parallel step does not count |
| Pipeline.HandleParallelStep | src/gpu_util/src/image_generator/parallel_process.rs:8-65 | the method's new state, result and remaining encoders are those of the parallel step rule |
| Pipeline.ExecuteValid | src/gpu_util/src/image_generator.rs:384-431 | every run of the steps keeps the generator's invariants |
| Pipeline.ExecuteEndsAsDeclared | src/gpu_util/src/image_generator.rs:392-430 | a successful run ending in a WGSL or CPU step ends with the single output that step declares |
| Pipeline.ExecuteLastParallel | src/gpu_util/src/image_generator.rs:392-430 | a successful run ending in a parallel step of single-ended sub-pipelines ends with one output per sub-pipeline |
| Pipeline.GenerateSingleEnd | src/gpu_util/src/image_generator.rs:434-450 | after successful steps, `generate` fails only on a map failure or a CPU output of the wrong length, and returns as many bytes as the last step declares |
| Pipeline.GenerateEmptyFails | src/gpu_util/src/image_generator.rs:436-446 | a builder with no steps fails with a final state of length 0 |
| Pipeline.GenerateParallelEnd | src/gpu_util/src/image_generator.rs:441-446 | ending with a parallel step of n != 1 single-ended sub-pipelines fails |
| Pipeline.ExecutePipeline | src/gpu_util/src/image_generator.rs:384-431 | the step loop computes the run: steps in order, state threaded through, encoders appended |
| Pipeline.Generate | src/gpu_util/src/image_generator.rs:434-450 | `generate` starts from an empty state and its result is the generate rule |
| WgslProcess.PrepareFrom | src/gpu_util/src/image_generator/wgsl_process.rs:20-58 | the input loop adds one view per remaining entry after the views made so far |
| WgslProcess.GroupZero | src/gpu_util/src/image_generator/wgsl_process.rs:83-103 | group 0 is numbered 0, 1, 2 without gaps: the input array at 0 iff there are inputs, then the output, then the sampler if any |
| WgslProcess.StepKey | src/gpu_util/src/image_generator/wgsl_process.rs:74-79 | the cache key records the number of inputs, `params.is_some()` and whether there is a sampler |
| WgslProcess.PrepareInputFacts | src/gpu_util/src/image_generator/wgsl_process.rs:22-57 | a GPU input is used as it is; a CPU input gets an upload texture of its size, written with a pitch of `16 * width` |
| WgslProcess.PrepareFromValid | src/gpu_util/src/image_generator/wgsl_process.rs:22-58 | the input loop keeps the invariants and leaves the pipeline and buffer caches alone |
| WgslProcess.PrepareInputView | src/gpu_util/src/image_generator/wgsl_process.rs:24-56 | the view made for one input matches it |
| WgslProcess.PrepareFromViews | src/gpu_util/src/image_generator/wgsl_process.rs:20-58 | exactly one view per state entry, in state order, for GPU and CPU entries alike |
| WgslProcess.PrepareFromQueue | src/gpu_util/src/image_generator/wgsl_process.rs:41-54 | the loop queues exactly one upload per CPU entry |
| WgslProcess.WgslStepKey | src/gpu_util/src/image_generator/wgsl_process.rs:74-80 | the key's input count is the number of state entries |
| WgslProcess.WgslStepFacts | src/gpu_util/src/image_generator/wgsl_process.rs:8-158 | the new state is one GPU output of the declared size; one encoder holds one pass whose dispatch covers it; group 1 exists iff there are params and binds a buffer of their bytes; the output sits after the inputs |
| WgslProcess.WgslStepViews | src/gpu_util/src/image_generator/wgsl_process.rs:84-90 | with inputs, group 0 starts with the array of the views the input loop made |
| WgslProcess.GroupZeroMatchesLayout | src/gpu_util/src/image_generator/wgsl_process.rs:83-111 | group 0 has the bindings and kinds of the cached layout, plus one undeclared entry for a sampler |
| WgslProcess.WgslStepUsesCachedPipeline | src/gpu_util/src/image_generator/wgsl_process.rs:80-119 | the pass uses the pipeline now at the front of the cache under the step's key |
| WgslProcess.EqualSizedUploadsShareTexture | src/gpu_util/src/image_generator/wgsl_process.rs:27-40 | two equal-size CPU inputs give the same view, written twice |
| WgslProcess.PrepareInputs | src/gpu_util/src/image_generator/wgsl_process.rs:20-58 | the push loop computes the input views and the new state |
| WgslProcess.BuildGroupZero | src/gpu_util/src/image_generator/wgsl_process.rs:83-103 | the pushed entries are group 0 |
| WgslProcess.HandleWgslStep | src/gpu_util/src/image_generator/wgsl_process.rs:8-158 | the method's state, outputs and encoders are the WGSL step rule |
| CpuFuncProcess.Depadded | src/gpu_util/src/image_generator/cpu_func_process.rs:61-66 | the packed rows are `rows * rowLen` bytes |
| CpuFuncProcess.DepaddedAt | src/gpu_util/src/image_generator/cpu_func_process.rs:62-66 | byte k of packed row y is byte `y * pitch + k` of the padded data |
| CpuFuncProcess.DepaddedCopiesRows | src/gpu_util/src/image_generator/cpu_func_process.rs:62-66 | every row is copied from its padded position |
| CpuFuncProcess.Mapped | src/gpu_util/src/image_generator/cpu_func_process.rs:58 | the mapped range has the buffer's size |
| CpuFuncProcess.Unpadded | src/gpu_util/src/image_generator/cpu_func_process.rs:61-66 | a successful copy loop yields whole floats |
| CpuFuncProcess.CopyInBoundsWithinLimits | src/gpu_util/src/image_generator/cpu_func_process.rs:61-66 | within the texture limits the copy loop never slices out of range |
| CpuFuncProcess.UnpaddedExact | src/gpu_util/src/image_generator/cpu_func_process.rs:61-66 | within the limits the loop packs exactly `16 * width * height` bytes, each row from its padded row |
| CpuFuncProcess.PaddedDownloadTooLong | src/gpu_util/src/image_generator/cpu_func_process.rs:67 | as written, a 1x1 texture downloads as 64 floats, not 4 |
| CpuFuncProcess.DownloadExact | src/gpu_util/src/image_generator/cpu_func_process.rs:11-68 | the corrected download fails iff mapping fails, and otherwise gives `4 * width * height` floats whose bytes are the packed rows |
| CpuFuncProcess.DownloadSteps | src/gpu_util/src/image_generator/cpu_func_process.rs:49-67 | the download is the copy loop on the mapped range, unless mapping fails |
| CpuFuncProcess.UnpaddedFloats | src/gpu_util/src/image_generator/cpu_func_process.rs:61-67 | the floats read from the packed rows have exactly those bytes |
| CpuFuncProcess.DownloadKeepsValid | src/gpu_util/src/image_generator/cpu_func_process.rs:19-47 | a download allocates one readback buffer of `pitch * height` bytes, submits one copy and touches no cache |
| CpuFuncProcess.DownloadShape | src/gpu_util/src/image_generator/cpu_func_process.rs:11-68 | a download fails only by a map failure or a panic, and succeeds with the texture's size |
| CpuFuncProcess.GpuTextures | src/gpu_util/src/image_generator/cpu_func_process.rs:95-115 | one texture per GPU entry |
| CpuFuncProcess.DownloadAllShape | src/gpu_util/src/image_generator/cpu_func_process.rs:117-122 | without failures one download per texture, in order, of its size; any failure fails the whole |
| CpuFuncProcess.DownloadAllValid | src/gpu_util/src/image_generator/cpu_func_process.rs:117-122 | downloading keeps the invariants, touches no cache and only appends to the queue |
| CpuFuncProcess.ReassembleFrom | src/gpu_util/src/image_generator/cpu_func_process.rs:127-142 | one input per remaining entry after those gathered so far |
| CpuFuncProcess.ReassembleAt | src/gpu_util/src/image_generator/cpu_func_process.rs:127-142 | order is kept: a CPU entry stays in place, a GPU entry takes the downloads first-in first-out |
| CpuFuncProcess.GpuTexturesAt | src/gpu_util/src/image_generator/cpu_func_process.rs:95-115 | the download used for a GPU entry is of that entry's own texture |
| CpuFuncProcess.CpuFuncStepFacts | src/gpu_util/src/image_generator/cpu_func_process.rs:70-174 | pending encoders are submitted first iff there are some; download or function errors propagate; the function sees one input per entry in order, GPU entries as corrected downloads; the new state is one CPU entry of the declared size, with no encoders |
| CpuFuncProcess.CopyRow | src/gpu_util/src/image_generator/cpu_func_process.rs:63-65 | `copy_from_slice` replaces exactly one row of `pixels` |
| CpuFuncProcess.DepadRows | src/gpu_util/src/image_generator/cpu_func_process.rs:61-66 | the in-place copy loop succeeds iff no slice is out of range, and then `pixels` are the packed rows |
| CpuFuncProcess.DownloadGpuTexture | src/gpu_util/src/image_generator/cpu_func_process.rs:11-68 | the method's state and result are the corrected download rule |
| CpuFuncProcess.ReadUnpadded | src/gpu_util/src/image_generator/cpu_func_process.rs:58-66 | mapping followed by the copy loop |
| CpuFuncProcess.Unpad | src/gpu_util/src/image_generator/cpu_func_process.rs:61-66 | the copy loop gives the packed rows or the panic |
| CpuFuncProcess.CollectGpuTextures | src/gpu_util/src/image_generator/cpu_func_process.rs:95-115 | the GPU entries' textures, in state order |
| CpuFuncProcess.DownloadInputs | src/gpu_util/src/image_generator/cpu_func_process.rs:117-122 | the collected downloads are the download-all rule, with the corrected download |
| CpuFuncProcess.Reassemble | src/gpu_util/src/image_generator/cpu_func_process.rs:127-142 | the loop popping the download queue gives the reassembly |
| CpuFuncProcess.HandleCpuFuncStep | src/gpu_util/src/image_generator/cpu_func_process.rs:70-174 | the method's state and result are the CPU step rule, with the corrected download |
| FinalProcess.F32ToU8Clamped | src/gpu_util/src/image_generator/final_process.rs:14-18 | values at or below 0 and NaN give 0, values at or above 1 give 255, and in between the result is `255 * v` truncated |
| FinalProcess.ClampOne | src/gpu_util/src/image_generator/final_process.rs:14-18 | 1.0 gives 255 |
| FinalProcess.ClampHalf | src/gpu_util/src/image_generator/final_process.rs:14-18 | 0.5 gives 127: truncation, not rounding |
| FinalProcess.ClampNaN | src/gpu_util/src/image_generator/final_process.rs:14-18 | NaN gives 0 |
| FinalProcess.CpuBytesFacts | src/gpu_util/src/image_generator/final_process.rs:133-145 | the CPU branch panics iff the data is not `width * height` pixels, else gives `4 * width * height` bytes, each the clamp of the same channel |
| FinalProcess.ConvertPixel | src/gpu_util/src/image_generator/final_process.rs:140-145 | one pixel's four bytes are clamped in place and no other byte changes |
| FinalProcess.ConvertCpuOutput | src/gpu_util/src/image_generator/final_process.rs:133-151 | the in-place loop computes the CPU branch |
| FinalProcess.MappedBuffer | src/gpu_util/src/image_generator/final_process.rs:118-119 | the mapped bytes are the buffer's size |
| FinalProcess.FinalEncoderFacts | src/gpu_util/src/image_generator/final_process.rs:72-101 | one post-processing pass in 16x16 groups covering the image, then a copy of the whole packed buffer |
| FinalProcess.GpuBytesFacts | src/gpu_util/src/image_generator/final_process.rs:42-123 | two buffers of `u32_buffer_size` bytes from the cache, one submit, a failure iff mapping fails, otherwise all the mapped bytes |
| FinalProcess.U32BufferSizeWithinLimits | src/gpu_util/src/image_generator/final_process.rs:45 | within the limits the buffer is `4 * width * height` bytes |
| FinalProcess.FinalStepFacts | src/gpu_util/src/image_generator/final_process.rs:21-154 | fails unless exactly one output is left; a CPU output is converted without touching the generator, a GPU output by the GPU branch |
| FinalProcess.HandleFinalProcess | src/gpu_util/src/image_generator/final_process.rs:21-154 | the method is the final step rule |
| FinalProcess.ConvertGpuOutput | src/gpu_util/src/image_generator/final_process.rs:42-123 | the method is the GPU branch rule |
| Compositing.ValidateSpec | src-python/src/aperio_plugin/__init__.py:224-237 | the checks pass exactly on well-formed arguments, in the source's order, and then hand back the layers and the size |
| Compositing.RoundHalfEven | src-python/src/aperio_plugin/__init__.py:324 | the result is within one half of the value |
| Compositing.RoundBetween | src-python/src/aperio_plugin/__init__.py:324 | rounding a value between two integers stays between them |
| Compositing.BlendChannel | src-python/src/aperio_plugin/__init__.py:316-324 | alpha 255 gives the layer, alpha 0 keeps the frame, and anything lies between the two |
| Compositing.BlendValueBetween | src-python/src/aperio_plugin/__init__.py:316-324 | the rounded blend has those properties |
| Compositing.BlendValueRange | src-python/src/aperio_plugin/__init__.py:316-323 | the unrounded blend lies between the layer and frame values |
| Compositing.Composite | src-python/src/aperio_plugin/__init__.py:279-324 | a successful composite keeps the frame's size and 3 channels |
| Compositing.CompositeOpaque | src-python/src/aperio_plugin/__init__.py:299-324 | a 1- or 3-channel layer replaces the pixels in its translated footprint, gray on every channel, and leaves all others |
| Compositing.CompositeBlended | src-python/src/aperio_plugin/__init__.py:295-324 | a 4-channel layer blends by its own alpha inside its footprint and leaves all others |
| Compositing.CompositeOffFrame | src-python/src/aperio_plugin/__init__.py:307-313 | a layer at or past the right edge is clipped away entirely |
| Compositing.CheckGenerated | src-python/src/aperio_plugin/__init__.py:248-257 | an array passes iff it has the expected shape; a wrapped UMat passes; anything else fails |
| Compositing.ApplyEffects | src-python/src/aperio_plugin/__init__.py:259-275 | a successful run of the filters yields a wrapped frame |
| Compositing.ComposeFrom | src-python/src/aperio_plugin/__init__.py:241-324 | a successful composition keeps the frame's size and channels |
| Compositing.FrameOf | src-python/src/aperio_plugin/__init__.py:240 | a frame of the given size whose bytes are the given contents |
| Compositing.Black | src-python/src/aperio_plugin/__init__.py:240 | a frame of the given size whose bytes are all 0 |
| Compositing.Futures | src-python/src/aperio_plugin/__init__.py:351-352 | one future per frame number `start + i`, in order |
| Compositing.FuturesGrow | src-python/src/aperio_plugin/__init__.py:351-352 | submitting one more frame appends that frame |
| Compositing.RenderFrame | src-python/src/aperio_plugin/__init__.py:351 | each submitted future renders frame `start + i` with `make_frame` |
| Compositing.MakeFrames | src-python/src/aperio_plugin/__init__.py:333-362 | an amount that is not a positive int is refused |
| Compositing.ChecksComeFirst | src-python/src/aperio_plugin/__init__.py:224-237 | arguments that fail a check fail with that check's error whatever the plugins: nothing is generated |
| Compositing.ComposeSplit | src-python/src/aperio_plugin/__init__.py:241 | layers are composited in list order: the first k, then the rest over that result |
| Compositing.ComposeOffFrame | src-python/src/aperio_plugin/__init__.py:241-324 | layers all past the right edge leave the frame as it was |
| Compositing.UncoveredShowsAllocation | src-python/src/aperio_plugin/__init__.py:240 | as written, such a frame shows the allocated, uninitialised bytes |
| Compositing.UncoveredIsBlack | src-python/src/aperio_plugin/__init__.py:240 | with the frame cleared first, such a frame is black |
| Compositing.CollectSpec | src-python/src/aperio_plugin/__init__.py:353-354 | collecting succeeds iff every frame did, giving the frames in frame order; otherwise the first failure, tagged with its frame number |
| Compositing.CollectFutures | src-python/src/aperio_plugin/__init__.py:350-356 | for any rendering of a frame, the futures of frames `start .. start + amount - 1` collect to those frames in order iff each is made, else to the first frame number that failed |
| Compositing.MakeFramesInOrder | src-python/src/aperio_plugin/__init__.py:333-362 | a positive amount gives the `make_frame` results of frames `start .. start + amount - 1` in order iff each succeeds, else the failure of the first frame that failed |
| Compositing.CheckFailureText | src-python/src/aperio_plugin/__init__.py:224-329 | each failed check raises "Failed to make frame: " followed by that check's own fixed message, the first failing check in source order deciding |
| Compositing.MakeFramesText | src-python/src/aperio_plugin/__init__.py:347-362 | a bad amount raises "Failed to make frames: amount must be a positive integer"; a frame's failed check is wrapped again in "Failed to make frames: " |
| AperioPlugin.CallWrapper | src-python/src/aperio_plugin/__init__.py:131-132 | calling the decorator's wrapper always raises |
| AperioPlugin.DecorateSpec | src-python/src/aperio_plugin/__init__.py:126-134 | a non-main class is refused with nothing changed; a main class is registered under its name, every other class kept, nothing instantiated |
| AperioPlugin.DecorateFiles | src-python/src/aperio_plugin/__init__.py:129 | a decorated main class is stored under its own name |
| AperioPlugin.DecorateKeepsOrder | src-python/src/aperio_plugin/__init__.py:129 | the class order keeps each decorated name exactly once |
| AperioPlugin.RegisterRoutes | src-python/src/aperio_plugin/__init__.py:144-149 | an object generator goes to the object dictionary and a filter to the filter dictionary, under its name, overwriting; the other dictionary is untouched; anything else raises with nothing changed |
| AperioPlugin.RegisterAllSpec | src-python/src/aperio_plugin/__init__.py:101-106 | registrations touch only the two dictionaries and all go through iff all are generators |
| AperioPlugin.LoadOne | src-python/src/aperio_plugin/__init__.py:96-106 | loading one class never changes the classes |
| AperioPlugin.Load | src-python/src/aperio_plugin/__init__.py:96-106 | loading never changes the classes |
| AperioPlugin.LoadOneSpec | src-python/src/aperio_plugin/__init__.py:96-106 | one class is instantiated iff it was not already and its constructor returns; existing instances are kept |
| AperioPlugin.LoadSpec | src-python/src/aperio_plugin/__init__.py:96-106 | from position i on, the same per name |
| AperioPlugin.LoadPluginsSpec | src-python/src/aperio_plugin/__init__.py:90-112 | after loading, a plugin exists iff it did or its class constructs; old instances are kept (the skip rule) |
| AperioPlugin.LoadTwice | src-python/src/aperio_plugin/__init__.py:96-99 | loading again adds and replaces nothing |
| AperioPlugin.PluginManager.constructor | src-python/src/aperio_plugin/__init__.py:42-45 | the four dictionaries start empty |
| AperioPlugin.PluginManager.Plugin | src-python/src/aperio_plugin/__init__.py:114-134 | the decorator's state change and wrapper are the decorate rule |
| AperioPlugin.PluginManager.RegisterSubPlugin | src-python/src/aperio_plugin/__init__.py:136-149 | the dictionary update, or the TypeError with nothing changed, is the registration rule |
| AperioPlugin.PluginManager.LoadPlugins | src-python/src/aperio_plugin/__init__.py:90-112 | the loop over the decorated classes is the load rule |
| AperioPlugin.PluginManager.LoadClass | src-python/src/aperio_plugin/__init__.py:96-106 | one turn of the loop is the one-class rule |
| AperioPlugin.PluginManager.RegisterSubPlugins | src-python/src/aperio_plugin/__init__.py:101-102 | a constructor's registrations, up to the first that raises |
| AperioPlugin.PluginManager.ExistsAfterLoad | src-python/src/aperio_plugin/__init__.py:151-161 | after loading, `check_plugin_exists` holds iff it held before or the class constructs |
| AperioPlugin.PluginManager.MakeFrame | src-python/src/aperio_plugin/__init__.py:209-331 | the method's result is the frame rule over the registered generators, starting from the corrected black frame |
| AperioPlugin.PluginManager.ComposeLayers | src-python/src/aperio_plugin/__init__.py:241-324 | the layer loop computes the composition |
| AperioPlugin.PluginManager.MakeLayer | src-python/src/aperio_plugin/__init__.py:242-324 | one layer: generator, shape check, filters, composite |
| AperioPlugin.PluginManager.RunEffects | src-python/src/aperio_plugin/__init__.py:260-275 | the effect loop computes the filter chain |
| AperioPlugin.PluginManager.MakeFrames | src-python/src/aperio_plugin/__init__.py:333-362 | the method's result is the frames rule, over the corrected black-frame `make_frame` |
| AperioPlugin.PluginManager.SubmitFrames | src-python/src/aperio_plugin/__init__.py:351-352 | one future per frame number, in order |
| AperioPlugin.PluginManager.CollectFutures | src-python/src/aperio_plugin/__init__.py:353-354 | waiting on each future in turn is the collect rule |
| AperioTaichi.Written | src-python/src/aperio_plugin/taichi/kernels.py:29-45 | a 3-channel pixel overwrites the destination; a 1-channel pixel writes its gray to all three channels |
| AperioTaichi.AlphaExtremes | src-python/src/aperio_plugin/taichi/kernels.py:29-36 | alpha 0 leaves the destination, alpha 1 replaces it |
| AperioTaichi.CompositeLayer | src-python/src/aperio_plugin/taichi/kernels.py:8-45 | every destination pixel ends as the layer pixel at the offset writes it, if it is in the footprint, and unchanged otherwise; nothing outside the frame is written |
| AperioTaichi.CompositeRow | src-python/src/aperio_plugin/taichi/kernels.py:21-45 | one layer row changes only the destination row it maps to |
| AperioTaichi.OutsideUnchanged | src-python/src/aperio_plugin/taichi/kernels.py:21-26 | pixels outside the translated footprint are unchanged |
| AperioTaichi.Clip | src-python/src/aperio_plugin/taichi/kernels.py:63 | the clip is within [0, 1] and is the identity there |
| AperioTaichi.FinalizeValue | src-python/src/aperio_plugin/taichi/kernels.py:61-64 | the byte is `255 * clip(v)` truncated, hence within [0, 255] |
| AperioTaichi.NormalizeValue | src-python/src/aperio_plugin/taichi/kernels.py:54 | a byte normalises into [0, 1] |
| AperioTaichi.FinalizeNormalized | src-python/src/aperio_plugin/taichi/kernels.py:47-64 | finalising a normalised byte gives it back |
| AperioTaichi.NormalizeFromNumpy | src-python/src/aperio_plugin/taichi/kernels.py:47-54 | every element is normalised |
| AperioTaichi.FinalizeToNumpy | src-python/src/aperio_plugin/taichi/kernels.py:56-64 | every element is finalised |
| AppConfig.MergeSpec | src/native/app_config.rs:74-90 | unless both sides are objects the result is the user value; two objects merge to an object |
| AppConfig.MergeKeys | src/native/app_config.rs:77-83 | the merged keys are the keys of both sides less those the user sets to null |
| AppConfig.MergeFields | src/native/app_config.rs:77-83 | per key: deleted on null, merged recursively when the user names it, untouched otherwise |
| AppConfig.MergeIntoNull | src/native/app_config.rs:81 | a key missing from the base gets the user's value verbatim, nested nulls included |
| AppConfig.MergeEmpty | src/native/app_config.rs:74-87 | merging an empty object changes nothing |
| AppConfig.UserLeafWins | src/native/app_config.rs:74-90 | a non-null, non-object user value holds at its path in the merged config |
| AppConfig.OverlayStep | src/native/app_config.rs:77-83 | merging one more key deletes or sets it and moves no other key |
| AppConfig.Merge | src/native/app_config.rs:74-90 | the in-place loop over the user's keys computes the merge |
| AppConfig.MergeConfigs | src/native/app_config.rs:64-72 | a parse error of the default, then of the user config, is the result; otherwise the user config merged over the default |
| SharedTexture.PixelFormatName | src/native/src/shared_texture.rs:136-144 | Abgr/Xbgr8888 give "rgba", Argb/Xrgb8888 give "bgra", Abgr16161616f gives "rgbaf16", and every other format panics |
| SharedTexture.ConvertPlanes | src/native/src/shared_texture.rs:108-123 | plane count and order are kept; fd, offset and size are copied; the stride is 7680 |
| SharedTexture.ConvertPlanesFixed | src/native/src/shared_texture.rs:114-122 | planes already of stride 7680 come through unchanged |
| SharedTexture.FromTextureInfo | src/native/src/shared_texture.rs:103-179 | panics iff the format is unnamed; otherwise always "rgbaf16", the size passed through, both rectangles full size, the constant fields, the modifier in decimal and the converted planes |
| Decimal.DecimalString | src/native/src/shared_texture.rs:125 | non-empty decimal digits without a leading zero |
| Decimal.DecimalRoundTrip | src/native/src/shared_texture.rs:125 | the decimal text reads back as the number |
| VulkanLinux.VulkanFormatToDrm | src/gpu_util/src/texture_to_native/linux.rs:354-377 | an unlisted format is an error; every float or 16-bit RGBA format falls back to Abgr8888 |
| VulkanLinux.ExternalMemoryFeatures | src/gpu_util/src/texture_to_native/linux.rs:318-332 | the features always contain EXPORTABLE |
| VulkanLinux.ExportabilityAlwaysPasses | src/gpu_util/src/texture_to_native/linux.rs:300-307 | a memory type is suitable iff its bit is set and its flags contain the required ones |
| VulkanLinux.FindMemoryTypeIndex | src/gpu_util/src/texture_to_native/linux.rs:283-315 | the smallest suitable index below the count, or the error when there is none |
| VulkanLinux.GraphicsFamily | src/gpu_util/src/texture_to_native/linux.rs:413-419 | the first queue family with GRAPHICS, or none |
| VulkanLinux.SelectDevice | src/gpu_util/src/texture_to_native/linux.rs:405-428 | the first device with a graphics family and that family's index; distinct errors for no devices and no suitable one |
| VulkanLinux.DmabufInfoOf | src/gpu_util/src/texture_to_native/linux.rs:188-244 | the first failing call's error, in call order; otherwise one plane with stride the row pitch cut to 32 bits, the modifier, the converted format and the size |
| VulkanLinux.StrideIsRowPitch | src/gpu_util/src/texture_to_native/linux.rs:225-233 | a row pitch that fits in 32 bits is the stride exactly |
| PythonUtils.FileExtension | src/native/src/python/utils.rs:23-32 | ".exe" is appended on Windows only |
| PythonUtils.ExeOnlyOnWindows | src/native/src/python/utils.rs:23-32 | the path ends in ".exe" iff the platform is Windows |
| PythonUtils.PackageArgsOrder | src/native/src/python/utils.rs:146-155 | "add", the packages in order, the python flags, then the base arguments |
| PythonUtils.InstallPackagesArgs | src/native/src/python/utils.rs:138-159 | the `extend` calls build those arguments |
| PythonUtils.VersionSpec | src/native/src/python/utils.rs:170-175 | "~=" then the version when vague, "==" then the version otherwise |
| PythonUtils.VersionSpecInjective | src/native/src/python/utils.rs:170-175 | the version and the vagueness can be read back from the specifier |
| PythonUtils.RunUv | src/native/src/python/utils.rs:34-45 | a non-success exit is an error carrying stderr; success yields stdout |
| PythonUtils.TrimSpec | src/native/src/python/utils.rs:117 | trim drops whitespace from both ends only |
| PythonUtils.TrimKeeps | src/native/src/python/utils.rs:117 | text without surrounding whitespace is its own trim |
| PythonUtils.CheckPythonInstalled | src/native/src/python/utils.rs:77-136 | a missing executable gives (false, None); otherwise installed iff the trimmed output equals the embedded version, and the python dir is removed iff not installed |
| PythonUtils.InstalledMeansMatched | src/native/src/python/utils.rs:117-135 | reported installed means the versions were compared and matched |
| PythonUtils.FirstIndex | src/native/src/python/utils.rs:222-230 | the first entry satisfying the predicate, or none |
| PythonUtils.ProjectStep | src/native/src/python/utils.rs:177-200 | an existing `pyproject.toml` is edited; otherwise `uv init` runs with the spec and the base arguments |
| PythonUtils.InstallPythonSpec | src/native/src/python/utils.rs:161-256 | a completed install edited or created the project, installed the requested version, removed the leftovers, moved the first `cpython` directory, and ran `uv add` on the path of the first `opencv_python_headless*.whl` entry of `resources/wheels` with the environment's interpreter |
| PythonUtils.InstallFailureOrder | src/native/src/python/utils.rs:161-256 | failures come in source order: the project step, `uv python install`, a missing `cpython` directory, a missing wheel, then `uv add`; each hides the later ones, and with none the install completes |
| AperioPluginBase.DisplayInfo | src-python/src/aperio_plugin/plugin_base/__init__.py:24-29 | the display name, a newline and a tab, then the description |
| AperioPluginBase.Headline | src-python/src/aperio_plugin/plugin_base/__init__.py:61 | the display name, " v", the version, " by ", the author |
| AperioPluginBase.MainDisplayInfoShape | src-python/src/aperio_plugin/plugin_base/__init__.py:56-61 | the main text starts with the display name and ends with a newline, a tab and the description |
| AperioPluginBase.PluginBase.constructor | src-python/src/aperio_plugin/plugin_base/__init__.py:16-22 | the base defaults |
| AperioPluginBase.MainPluginBase.constructor | src-python/src/aperio_plugin/plugin_base/__init__.py:46-54 | the base defaults, version "0.1.0", author "Your Name" and the stored manager |
| Platform.GetOs | src/main/getPlatform.ts:3-17 | aix, freebsd, linux, openbsd and android give "linux"; darwin and sunos "mac"; win32 "win"; anything else undefined |
| Platform.GetArch | src/main/getPlatform.ts:19-28 | "arm64" iff arm64, else "x64", with an error logged iff the architecture is neither |
| Platform.ArchFallback | src/main/getPlatform.ts:25-27 | the mapping is the identity on supported architectures and falls back to x64 |
| RendererStore.FetchPluginNames | src/renderer/store.ts:31-39 | the native side is asked iff no names are stored; the stored names then equal the returned ones |
| RendererStore.FetchOnce | src/renderer/store.ts:31-39 | a second call asks nobody and returns what the first returned |
| RendererStore.SettersKeepPluginNames | src/renderer/store.ts:26-29 | no setter affects the names fetched |
| RendererStore.FirstFetchAsksNative | src/renderer/store.ts:30-37 | the first call on a fresh store returns the native answer |
| RendererStore.Store.constructor | src/renderer/store.ts:24-30 | frame count 0, "playing", no layers, no names |
| RendererStore.Store.SetViewerState | src/renderer/store.ts:26 | only the viewer state changes |
| RendererStore.Store.SetFrameCount | src/renderer/store.ts:27 | only the frame count changes |
| RendererStore.Store.SetTimelineLayers | src/renderer/store.ts:29 | only the timeline layers change |
| RendererStore.Store.GetPluginNames | src/renderer/store.ts:31-39 | the method is the memoising fetch rule |

## Left out

- GPU and Vulkan device work is not modelled: device, adapter and queue creation, shader compilation, command execution, buffer mapping, polling, and texture creation. Handles are opaque values, and readback contents and map failures come from an uninterpreted environment.
- Concurrency is modelled sequentially: locks, `join_all`, rayon chunks, Taichi parallel loops and the thread pool. Only the ordering guarantees are kept.
- Floating point:
  - the cv2 four-channel blend is computed over reals with round-half-even and no f32 rounding;
  - the Taichi fields hold reals;
  - the f32 multiplication inside `f32_to_u8_clamped` is exact.
- The caller's `state` being cleared or drained by the parallel and CPU step handlers is not modelled. `execute_pipeline` overwrites that state on every path, so nothing observes it.
- Plugin discovery and installation from disk is not modelled: the module glob and import in `__init__.py` lines 47-88, and `add_plugin` with its hash comparison and copy at lines 163-207. Plugins enter the model as registered values.
- The "Loaded Plugins" console output of `__load_plugins` and the error logged by `getArch` are not modelled as I/O. `getArch` returns its message as a value instead.
- Python bootstrapping is not modelled: spawning uv, environment variables, interpreter initialisation, directory creation and config file I/O. What uv and the file system report are parameters.
- Binding glue (pyo3, napi, pickling) and the UI are not part of this model.
- AperioPlugin.PluginManager.CheckPluginExists: plain membership has no contract of its own. It is used by `ExistsAfterLoad`.
- PythonUtils.GetBaseArgs, PythonUtils.PackageArgs and PythonUtils.InstallPython have no contracts of their own. Their results are stated by `ProjectStep`, `PackageArgsOrder` and `InstallPythonSpec`.
- AperioTaichi.CompositeLayer: the `i32` offset arithmetic of the kernel is unbounded here, so overflow is not modelled.
- SharedTexture.FromTextureInfo: the panic text of an unknown `OtherFourcc` code uses its decimal value instead of Rust's `Debug` name.
- RendererStore.Store: `frameCount` is an unbounded integer rather than a JavaScript number, and the native `getPluginNames` answer is a parameter.
- Compositing.MakeFrames: its own contract states only the refusal of a bad amount. The order of the frames is stated by `MakeFramesInOrder`.
- Compositing.MakeFrame, Compositing.MakeFrames, AperioPlugin.PluginManager.MakeFrame and AperioPlugin.PluginManager.MakeFrames use the corrected rule of the second finding below: the frame starts black. `make_frame` as written starts from an uninitialised allocation, which is modelled by `Compositing.MakeFrameAsWritten`.
- CpuFuncProcess.CpuFuncStep, CpuFuncProcess.DownloadAll, CpuFuncProcess.DownloadInputs and CpuFuncProcess.HandleCpuFuncStep use the corrected download of the first finding below: the CPU function receives the unpadded pixels, `4 * w * h` floats per texture. `download_texture` as written returns the whole padded mapping, which is modelled by `CpuFuncProcess.DownloadTextureAsWritten`.
- Pipeline.Execute, Pipeline.ExecutePipeline, Pipeline.GenerateResult and Pipeline.Generate inherit that corrected download wherever a CPU step follows a GPU step.
- Compositing.FrameError: error texts are abstracted to constructors. Only the six fixed check messages and the two `RuntimeError` prefixes are stated as text, by `CheckFailureText` and `MakeFramesText`. The shape, type-name, unregistered-plugin and plugin-raised messages carry their data instead of their formatted text.
- Compositing.FramesError: the frame number in `FrameFailed` is the model's own addition. The source's "Failed to make frames: ..." text carries only the frame's message.
- Compositing.LayerDict: a layer dict missing a key, such as `channels`, is not modelled. In the source that raises a `KeyError`, which becomes the same `RuntimeError` wrap.
- VulkanLinux.VulkanFormatToDrm: the error is the message prefix alone. The source appends the `Debug` name of the format, which needs Vulkan's name table.

## Findings

| source | as written | input that shows it | evidently intended | confidence | as-written member | corrected member |
|---|---|---|---|---|---|---|
| src/gpu_util/src/image_generator/cpu_func_process.rs:61-67 | the rows are copied into `pixels`, but the function returns the cast of the whole padded mapped range, padding included | a 1x1 texture: 256 mapped bytes come back as 64 floats, not the 4 of its texel | return the packed `pixels`, `4 * width * height` floats | not executed | CpuFuncProcess.PaddedDownloadTooLong | CpuFuncProcess.DownloadExact |
| src-python/src/aperio_plugin/__init__.py:240 | the frame starts as `cv2.UMat(height, width, CV_8UC3)`, which is not initialised, and layers only write inside their footprints | one layer placed entirely past the right edge: every pixel of the result is whatever the allocation held | a black frame under the layers | not executed | Compositing.UncoveredShowsAllocation | Compositing.UncoveredIsBlack |
