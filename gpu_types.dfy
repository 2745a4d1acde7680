/**
 * The values that flow through the GPU image pipeline: device handles,
 * the per-step output, the cache keys, the recorded GPU commands and the
 * compiled shader or CPU function a step carries.
 *
 * Device objects (textures, buffers, pipelines) are handles with an `id`
 * handed out by the generator's device; command encoders are the list of
 * commands they record; what the GPU itself computes is not modelled, and
 * what it hands back when a buffer is mapped comes from `GpuContents`.
 */
module GpuTypes {
  import opened Wrappers
  import opened MachineInts

  /** An `f32` as its IEEE-754 bit pattern. */
  datatype F32 = F32(bits: u32)

  datatype Texture = Texture(id: nat, width: u32, height: u32)
  datatype Buffer = Buffer(id: nat, size: nat)
  datatype PipelineHandle = PipelineHandle(id: nat, shader: ShaderModule)
  datatype ShaderModule = ShaderModule(id: nat)
  datatype Sampler = Sampler(id: nat)

  datatype TextureFormat = Rgba32Float
  datatype TextureUsage = TextureBinding | TextureCopyDst | StorageBinding | TextureCopySrc
  datatype BufferUsage = Storage | BufferCopySrc | MapRead | BufferCopyDst

  /** The result of one step: a texture on the GPU or floats on the CPU. */
  datatype StepOutput =
    | Gpu(texture: Texture, width: u32, height: u32)
    | Cpu(data: seq<F32>, width: u32, height: u32)

  /** The outputs of the previous step, in order: the next step's inputs. */
  type ProcessingState = seq<StepOutput>

  datatype PipelineCacheKey = PipelineCacheKey(id: string, inputTextureCount: nat, hasStorage: bool, hasSampler: bool)
  datatype TextureCacheKey = TextureCacheKey(step: nat, width: u32, height: u32, format: TextureFormat, usage: set<TextureUsage>)
  datatype BufferCacheKey = BufferCacheKey(size: u64, usage: set<BufferUsage>)

  datatype BindingKind = SampledTextureArray | StorageTexture | StorageBuffer
  /** One entry of a bind group layout; `count` is set for an array binding. */
  datatype LayoutEntry = LayoutEntry(binding: nat, kind: BindingKind, count: Option<u32>)
  datatype CachedPipeline = CachedPipeline(pipeline: PipelineHandle, bindGroupLayouts: seq<seq<LayoutEntry>>)

  datatype BindResource =
    | TextureViewArray(textures: seq<Texture>)
    | TextureView(texture: Texture)
    | SamplerBinding(sampler: Sampler)
    | BufferBinding(buffer: Buffer)
    | ParamsBuffer(buffer: Buffer, contents: seq<u8>)
  datatype BindEntry = BindEntry(binding: nat, resource: BindResource)

  datatype Workgroups = Workgroups(x: u32, y: u32, z: u32)

  datatype Command =
    | ComputePass(pipeline: PipelineHandle, group0: seq<BindEntry>, group1: Option<seq<BindEntry>>, workgroups: Workgroups)
    | CopyTextureToBuffer(texture: Texture, buffer: Buffer, bytesPerRow: u32, rowsPerImage: u32)
    | CopyBufferToBuffer(source: Buffer, destination: Buffer, size: u64)

  /** A finished command encoder: the commands it recorded, in order. */
  datatype Encoder = Encoder(commands: seq<Command>)

  /** What the generator hands to the GPU queue, in order. */
  datatype QueueOp =
    | Submit(encoders: seq<Encoder>)
    | WriteTexture(texture: Texture, data: seq<F32>, bytesPerRow: u32, width: u32, height: u32)

  datatype CompiledWgsl = CompiledWgsl(id: string, shader: ShaderModule, sampler: Option<Sampler>)

  datatype CpuInputImage = CpuInputImage(data: seq<F32>, width: u32, height: u32)
  datatype CpuOutput = CpuOutput(data: seq<F32>, width: u32, height: u32)
  /** A CPU step's function, supplied by the caller (a Python callable). */
  datatype CompiledFunc = CompiledFunc(func: (seq<CpuInputImage>, Option<seq<u8>>) -> Result<CpuOutput, string>)

  /**
   * What mapping a buffer hands back. `textureByte(t, epoch, i)` is byte `i`
   * of the padded copy of texture `t` and `bufferByte(b, epoch, i)` byte `i`
   * of buffer `b`, once `epoch` operations have reached the queue;
   * `mapFails(epoch)` says whether polling or mapping fails at that point.
   */
  datatype GpuContents = GpuContents(
    textureByte: (Texture, nat, nat) -> u8,
    bufferByte: (Buffer, nat, nat) -> u8,
    mapFails: nat -> bool)

  datatype Error =
    | CpuFuncFailed(message: string)
    | MapFailed
    | WrongFinalStateLength(length: nat)
    | Panic(message: string)

  /** A step's result: its outputs and the encoders it recorded. */
  type StepResult = Result<(ProcessingState, seq<Encoder>), Error>

  /** `bytemuck::cast_slice::<u8, f32>`: four little-endian bytes per float. */
  function CastF32(data: seq<u8>): (r: seq<F32>)
    requires |data| % 4 == 0
    ensures |r| == |data| / 4
    decreases |data|
  {
    if data == [] then []
    else [F32(LittleEndian32(data[0], data[1], data[2], data[3]))] + CastF32(data[4..])
  }

  function LittleEndian32(b0: u8, b1: u8, b2: u8, b3: u8): u32
  {
    (b0 as int + 0x100 * b1 as int + 0x1_0000 * b2 as int + 0x100_0000 * b3 as int) as u32
  }

  /** The four little-endian bytes of a float: `bytemuck::cast_slice::<f32, u8>`. */
  function F32Bytes(f: F32): (r: seq<u8>)
    ensures |r| == 4
  {
    var v := f.bits as int;
    [(v % 0x100) as u8, (v / 0x100 % 0x100) as u8, (v / 0x1_0000 % 0x100) as u8, (v / 0x100_0000 % 0x100) as u8]
  }

  function FloatsToBytes(fs: seq<F32>): (r: seq<u8>)
    ensures |r| == 4 * |fs|
  {
    if fs == [] then [] else F32Bytes(fs[0]) + FloatsToBytes(fs[1..])
  }

  lemma LittleEndianOfBytes(f: F32)
    ensures var b := F32Bytes(f); LittleEndian32(b[0], b[1], b[2], b[3]) == f.bits
  {
    var v := f.bits as int;
    var a, b, c := v / 0x100, v / 0x1_0000, v / 0x100_0000;
    assert v == v % 0x100 + 0x100 * a;
    assert a == a % 0x100 + 0x100 * (a / 0x100) && a / 0x100 == b;
    assert b == b % 0x100 + 0x100 * (b / 0x100) && b / 0x100 == c;
  }

  /** Reading four bytes and then the rest is reading the whole. */
  lemma CastHead(h: seq<u8>, t: seq<u8>)
    requires |h| == 4 && |t| % 4 == 0
    ensures CastF32(h + t) == [F32(LittleEndian32(h[0], h[1], h[2], h[3]))] + CastF32(t)
  {
    var b := h + t;
    assert b[4..] == t;
    assert b[0] == h[0] && b[1] == h[1] && b[2] == h[2] && b[3] == h[3];
  }

  /** Reading floats back from their bytes gives the same floats. */
  lemma {:induction false} CastF32OfBytes(fs: seq<F32>)
    ensures |FloatsToBytes(fs)| % 4 == 0
    ensures CastF32(FloatsToBytes(fs)) == fs
  {
    if fs != [] {
      var h := F32Bytes(fs[0]);
      var t := FloatsToBytes(fs[1..]);
      assert FloatsToBytes(fs) == h + t;
      CastF32OfBytes(fs[1..]);
      LittleEndianOfBytes(fs[0]);
      CastHead(h, t);
      assert [fs[0]] + fs[1..] == fs;
    }
  }

  lemma BytesOfLittleEndian(b0: u8, b1: u8, b2: u8, b3: u8)
    ensures F32Bytes(F32(LittleEndian32(b0, b1, b2, b3))) == [b0, b1, b2, b3]
  {
    var v := LittleEndian32(b0, b1, b2, b3) as int;
    var hi := b1 as int + 0x100 * b2 as int + 0x1_0000 * b3 as int;
    assert v == b0 as int + 0x100 * hi;
    assert v % 0x100 == b0 as int && v / 0x100 == hi;
    var hi2 := b2 as int + 0x100 * b3 as int;
    assert hi == b1 as int + 0x100 * hi2;
    assert hi % 0x100 == b1 as int && hi / 0x100 == hi2;
    assert v / 0x1_0000 == hi / 0x100;
    assert v / 0x100_0000 == hi2 / 0x100;
  }

  /** Writing the floats read from bytes gives the same bytes. */
  lemma {:induction false} BytesOfCastF32(data: seq<u8>)
    requires |data| % 4 == 0
    ensures FloatsToBytes(CastF32(data)) == data
    decreases |data|
  {
    if data != [] {
      var fs := CastF32(data);
      assert fs[1..] == CastF32(data[4..]);
      BytesOfCastF32(data[4..]);
      BytesOfLittleEndian(data[0], data[1], data[2], data[3]);
      assert FloatsToBytes(fs) == F32Bytes(fs[0]) + FloatsToBytes(fs[1..]);
      assert data == data[..4] + data[4..];
    }
  }
}
