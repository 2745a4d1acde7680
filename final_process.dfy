/**
 * `handle_final_process` and `f32_to_u8_clamped`: the one remaining output
 * of the pipeline becomes RGBA bytes, by a post-processing compute pass
 * when it is a texture and by clamping every float when it is on the CPU.
 */
module FinalProcess {
  import opened Wrappers
  import opened MachineInts
  import opened GpuTypes
  import opened GpuArith
  import opened GeneratorCore

  // ---------------------------------------------------------------------
  // Floats.

  /** What an IEEE-754 single-precision bit pattern denotes. */
  datatype FloatValue = Finite(value: real) | PosInf | NegInf | NaN

  function Pow2(e: nat): (r: real)
    ensures r > 0.0
  {
    if e == 0 then 1.0 else 2.0 * Pow2(e - 1)
  }

  lemma Pow2Values()
    ensures Pow2(23) == 8388608.0 && Pow2(24) == 16777216.0
  {
    assert Pow2(8) == 256.0;
    Pow2Add(8, 8);
    Pow2Add(16, 7);
    Pow2Add(16, 8);
    assert Pow2(7) == 128.0;
  }

  lemma {:induction false} Pow2Add(a: nat, b: nat)
    ensures Pow2(a + b) == Pow2(a) * Pow2(b)
    decreases b
  {
    if b > 0 {
      Pow2Add(a, b - 1);
      assert Pow2(a + b) == 2.0 * Pow2(a + b - 1);
    }
  }

  /** 2 to the power `k`, for any integer `k`. */
  function TwoTo(k: int): (r: real)
    ensures r > 0.0
  {
    if k >= 0 then Pow2(k) else 1.0 / Pow2(-k)
  }

  /** The value of a binary32 bit pattern: sign, 8 exponent bits, 23 fraction bits. */
  function Decode(f: F32): FloatValue
  {
    var bits := f.bits as int;
    var negative := bits >= 0x8000_0000;
    var exponent := bits / 0x80_0000 % 0x100;
    var fraction := bits % 0x80_0000;
    if exponent == 0xff then
      (if fraction != 0 then NaN else if negative then NegInf else PosInf)
    else
      var magnitude :=
        if exponent == 0 then fraction as real * TwoTo(exponent - 149)
        else (0x80_0000 + fraction) as real * TwoTo(exponent - 150);
      Finite(if negative then -magnitude else magnitude)
  }

  /**
   * `f32_to_u8_clamped`: the value times 255, clamped to [0, 255] and
   * truncated. `max` returns its other operand for NaN, so NaN gives 0.
   */
  function F32ToU8Clamped(f: F32): (b: u8)
    ensures Decode(f).NaN? || Decode(f).NegInf? ==> b == 0
    ensures Decode(f).PosInf? ==> b == 255
    ensures Decode(f).Finite? && Decode(f).value <= 0.0 ==> b == 0
    ensures Decode(f).Finite? && Decode(f).value >= 1.0 ==> b == 255
    ensures Decode(f).Finite? && 0.0 <= Decode(f).value <= 1.0 ==>
      b as real <= 255.0 * Decode(f).value < b as real + 1.0
  {
    match Decode(f)
    case NaN => 0
    case NegInf => 0
    case PosInf => 255
    case Finite(x) =>
      var y := x * 255.0;
      if y <= 0.0 then 0 else if y >= 255.0 then 255 else y.Floor as u8
  }

  /** Exponent 127 is one: the pattern of 1.0 decodes to 1 and clamps to 255. */
  lemma ClampOne(f: F32)
    requires f.bits == 0x3f80_0000
    ensures Decode(f) == Finite(1.0) && F32ToU8Clamped(f) == 255
  {
    assert f.bits as int / 0x80_0000 % 0x100 == 127 && f.bits as int % 0x80_0000 == 0;
    Pow2Values();
  }

  /** One half scales to 127.5 and truncates to 127, not 128. */
  lemma ClampHalf(f: F32)
    requires f.bits == 0x3f00_0000
    ensures Decode(f) == Finite(0.5) && F32ToU8Clamped(f) == 127
  {
    assert f.bits as int / 0x80_0000 % 0x100 == 126 && f.bits as int % 0x80_0000 == 0;
    Pow2Values();
  }

  /** A quiet NaN clamps to 0. */
  lemma ClampNaN(f: F32)
    requires f.bits == 0x7fc0_0000
    ensures Decode(f).NaN? && F32ToU8Clamped(f) == 0
  {
    assert f.bits as int / 0x80_0000 % 0x100 == 0xff && f.bits as int % 0x80_0000 != 0;
  }

  // ---------------------------------------------------------------------
  // The CPU branch.

  const ZIP_EQ_PANIC: string := "zip_eq: lengths differ"

  /**
   * The CPU branch: `width * height * 4` bytes, each the clamp of the
   * float at the same index; `zip_eq` panics unless the floats hold
   * exactly `width * height` whole pixels.
   */
  function CpuBytes(data: seq<F32>, width: u32, height: u32): Result<seq<u8>, Error>
  {
    var pixelCount := width as nat * height as nat;
    if |data| / 4 != pixelCount then Err(Panic(ZIP_EQ_PANIC))
    else
      WholePixels(|data|, pixelCount);
      Ok(seq(4 * pixelCount, i requires 0 <= i < 4 * pixelCount => F32ToU8Clamped(data[i])))
  }

  lemma WholePixels(n: nat, pixels: nat)
    requires n / 4 == pixels
    ensures 4 * pixels <= n < 4 * pixels + 4
  {
  }

  /**
   * The CPU branch fails exactly when the floats are not `width * height`
   * whole pixels; otherwise it is `4 * width * height` bytes and channel
   * `c` of pixel `p` is the clamp of channel `c` of pixel `p`.
   */
  lemma CpuBytesFacts(data: seq<F32>, width: u32, height: u32)
    ensures var r := CpuBytes(data, width, height);
      && (r.Err? <==> |data| / 4 != width as nat * height as nat)
      && (r.Err? ==> r.error.Panic?)
      && (r.Ok? ==>
            && |r.value| == 4 * width as nat * height as nat
            && forall p: nat, c: nat {:trigger r.value[Channel(p, c)]} :: p < width as nat * height as nat && c < 4 ==>
                 Channel(p, c) < |data| && r.value[Channel(p, c)] == F32ToU8Clamped(data[Channel(p, c)]))
  {
    var n := width as nat * height as nat;
    if |data| / 4 == n {
      WholePixels(|data|, n);
      forall p: nat, c: nat | p < n && c < 4 ensures Channel(p, c) < 4 * n {
        ChannelBound(p, c, n);
      }
    }
  }

  /** Index of channel `c` of pixel `p` in RGBA order. */
  function Channel(p: nat, c: nat): nat
  {
    4 * p + c
  }

  lemma ChannelBound(p: nat, c: nat, n: nat)
    requires p < n && c < 4
    ensures Channel(p, c) < 4 * n
  {
  }

  /** `dst[c] = f32_to_u8_clamped(src[c])` for the four channels of pixel `p`. */
  method ConvertPixel(resultBytes: array<u8>, data: seq<F32>, p: nat)
    requires 4 * p + 4 <= resultBytes.Length && 4 * p + 4 <= |data|
    modifies resultBytes
    ensures forall i :: 0 <= i < resultBytes.Length ==>
      resultBytes[i] == if 4 * p <= i < 4 * p + 4 then F32ToU8Clamped(data[i]) else old(resultBytes[i])
  {
    resultBytes[4 * p] := F32ToU8Clamped(data[4 * p]);
    resultBytes[4 * p + 1] := F32ToU8Clamped(data[4 * p + 1]);
    resultBytes[4 * p + 2] := F32ToU8Clamped(data[4 * p + 2]);
    resultBytes[4 * p + 3] := F32ToU8Clamped(data[4 * p + 3]);
  }

  /** The CPU branch, filling `result_bytes` pixel by pixel. */
  method ConvertCpuOutput(data: seq<F32>, width: u32, height: u32) returns (r: Result<seq<u8>, Error>)
    ensures r == CpuBytes(data, width, height)
  {
    var pixelCount := width as nat * height as nat;
    if |data| / 4 != pixelCount {
      return Err(Panic(ZIP_EQ_PANIC));
    }
    WholePixels(|data|, pixelCount);
    var n := pixelCount * 4;
    var resultBytes := new u8[n](_ => 0);
    var p := 0;
    while p < pixelCount
      invariant 0 <= p <= pixelCount
      invariant forall i :: 0 <= i < 4 * p ==> resultBytes[i] == F32ToU8Clamped(data[i])
      decreases pixelCount - p
    {
      ConvertPixel(resultBytes, data, p);
      p := p + 1;
    }
    assert resultBytes[..] == seq(4 * pixelCount, i requires 0 <= i < 4 * pixelCount => F32ToU8Clamped(data[i]));
    r := Ok(resultBytes[..]);
  }

  // ---------------------------------------------------------------------
  // The GPU branch and the whole final step.

  const STORAGE_COPY_SRC: set<BufferUsage> := {Storage, BufferCopySrc}
  const MAP_READ_COPY_DST: set<BufferUsage> := {MapRead, BufferCopyDst}

  /** `width * height * size_of::<u32>()` in `u32`: one packed RGBA pixel per `u32`. */
  function U32BufferSize(width: u32, height: u32): u32
  {
    Wrap32(Wrap32(width as int * height as int) as int * 4)
  }

  /** The bytes of `buffer` once mapped. */
  function MappedBuffer(env: GpuContents, buffer: Buffer, epoch: nat): (r: seq<u8>)
    ensures |r| == buffer.size
  {
    seq(buffer.size, i requires 0 <= i < buffer.size => env.bufferByte(buffer, epoch, i))
  }

  /** The encoder of the GPU branch: the post-processing pass, then the copy to the readback buffer. */
  function FinalEncoder(post: PipelineHandle, t: Texture, width: u32, height: u32,
                        packed: Buffer, readback: Buffer): Encoder
  {
    Encoder([
      ComputePass(post, [BindEntry(0, TextureView(t)), BindEntry(1, BufferBinding(packed))], None,
                  Workgroups(WorkgroupCount(width), WorkgroupCount(height), 1)),
      CopyBufferToBuffer(packed, readback, U32BufferSize(width, height) as u64)])
  }

  /** The GPU branch of `handle_final_process` on the value of the generator. */
  function GpuBytes(m: GenModel, env: GpuContents, post: PipelineHandle, t: Texture,
                    width: u32, height: u32): (GenModel, Result<seq<u8>, Error>)
  {
    var size := U32BufferSize(width, height) as u64;
    var (m1, packed) := BufferLookup(m, BufferCacheKey(size, STORAGE_COPY_SRC));
    var (m2, readback) := BufferLookup(m1, BufferCacheKey(size, MAP_READ_COPY_DST));
    var m3 := Enqueued(m2, Submit([FinalEncoder(post, t, width, height, packed, readback)]));
    var epoch := |m3.queue|;
    if env.mapFails(epoch) then (m3, Err(MapFailed))
    else (m3, Ok(MappedBuffer(env, readback, epoch)))
  }

  /** `handle_final_process` on the value of the generator. */
  function FinalStep(m: GenModel, env: GpuContents, post: PipelineHandle, finalState: ProcessingState)
    : (GenModel, Result<seq<u8>, Error>)
  {
    if |finalState| != 1 then (m, Err(WrongFinalStateLength(|finalState|)))
    else match finalState[0]
      case Gpu(t, width, height) => GpuBytes(m, env, post, t, width, height)
      case Cpu(data, width, height) => (m, CpuBytes(data, width, height))
  }

  /**
   * The encoder runs the post-processing pass over the texture, with the
   * packed buffer at binding 1, in 16x16 groups that cover the image, and
   * then copies all of the packed buffer into the readback buffer.
   */
  lemma FinalEncoderFacts(post: PipelineHandle, t: Texture, width: u32, height: u32, packed: Buffer, readback: Buffer)
    ensures var commands := FinalEncoder(post, t, width, height, packed, readback).commands;
      && |commands| == 2
      && commands[0].ComputePass? && commands[0].pipeline == post && commands[0].group1.None?
      && commands[0].group0 == [BindEntry(0, TextureView(t)), BindEntry(1, BufferBinding(packed))]
      && (width as int + 15 < TWO_32 ==> WORKGROUP_SIDE * commands[0].workgroups.x as int >= width as int)
      && (height as int + 15 < TWO_32 ==> WORKGROUP_SIDE * commands[0].workgroups.y as int >= height as int)
      && commands[0].workgroups.z == 1
      && commands[1] == CopyBufferToBuffer(packed, readback, U32BufferSize(width, height) as u64)
  {
    if width as int + 15 < TWO_32 {
      WorkgroupsCover(width);
    }
    if height as int + 15 < TWO_32 {
      WorkgroupsCover(height);
    }
  }

  /**
   * The GPU branch keeps the generator valid, takes two buffers of
   * `U32BufferSize` bytes from the buffer cache, one for the shader to
   * write and one to map, and submits the final encoder on its own. It
   * fails exactly when mapping fails, and otherwise returns all the bytes
   * of the mapped buffer.
   */
  lemma GpuBytesFacts(m: GenModel, env: GpuContents, post: PipelineHandle, t: Texture, width: u32, height: u32)
    requires GenValid(m)
    ensures var size := U32BufferSize(width, height) as u64;
      var (m1, packed) := BufferLookup(m, BufferCacheKey(size, STORAGE_COPY_SRC));
      var (m2, readback) := BufferLookup(m1, BufferCacheKey(size, MAP_READ_COPY_DST));
      var (m', r) := GpuBytes(m, env, post, t, width, height);
      && GenValid(m')
      && m'.pipelines == m.pipelines && m'.textures == m.textures
      && packed.size == size as nat && readback.size == size as nat
      && m'.queue == m.queue + [Submit([FinalEncoder(post, t, width, height, packed, readback)])]
      && (r.Err? <==> env.mapFails(|m.queue| + 1))
      && (r.Err? ==> r.error == MapFailed)
      && (r.Ok? ==> r.value == MappedBuffer(env, readback, |m.queue| + 1) && |r.value| == size as nat)
  {
    var size := U32BufferSize(width, height) as u64;
    BufferLookupFacts(m, BufferCacheKey(size, STORAGE_COPY_SRC));
    var (m1, packed) := BufferLookup(m, BufferCacheKey(size, STORAGE_COPY_SRC));
    BufferLookupFacts(m1, BufferCacheKey(size, MAP_READ_COPY_DST));
    var (m2, readback) := BufferLookup(m1, BufferCacheKey(size, MAP_READ_COPY_DST));
    FreshAndEnqueueKeepValid(m2, 0, Submit([FinalEncoder(post, t, width, height, packed, readback)]));
  }

  /** The packed buffer has one `u32` per pixel when the image is within the texture limits. */
  lemma FourTimes(a: int, b: int)
    ensures 4 * a * b == (a * b) * 4
  {
  }

  lemma U32BufferSizeWithinLimits(width: u32, height: u32)
    requires width as int <= MAX_TEXTURE_DIMENSION_2D && height as int <= MAX_TEXTURE_DIMENSION_2D
    ensures U32BufferSize(width, height) as int == 4 * width as int * height as int
  {
    var pixels := width as int * height as int;
    MulMonotone(width as int, height as int, MAX_TEXTURE_DIMENSION_2D, MAX_TEXTURE_DIMENSION_2D);
    FourTimes(width as int, height as int);
    assert Wrap32(pixels) as int == pixels;
    assert Wrap32(pixels * 4) as int == pixels * 4;
  }

  /**
   * The final step fails unless exactly one output is left; a CPU output
   * is converted without touching the generator, a GPU output by
   * `GpuBytes`.
   */
  lemma FinalStepFacts(m: GenModel, env: GpuContents, post: PipelineHandle, finalState: ProcessingState)
    requires GenValid(m)
    ensures var (m', r) := FinalStep(m, env, post, finalState);
      && GenValid(m')
      && (|finalState| != 1 ==> m' == m && r == Err(WrongFinalStateLength(|finalState|)))
      && (|finalState| == 1 && finalState[0].Cpu? ==>
            m' == m && r == CpuBytes(finalState[0].data, finalState[0].width, finalState[0].height))
      && (|finalState| == 1 && finalState[0].Gpu? ==>
            (m', r) == GpuBytes(m, env, post, finalState[0].texture, finalState[0].width, finalState[0].height))
  {
    if |finalState| == 1 && finalState[0].Gpu? {
      GpuBytesFacts(m, env, post, finalState[0].texture, finalState[0].width, finalState[0].height);
    }
  }

  /** `handle_final_process`. */
  method HandleFinalProcess(g: ImageGenerator, env: GpuContents, finalState: ProcessingState)
    returns (r: Result<seq<u8>, Error>)
    requires g.Valid()
    modifies g, g.bufferCache
    ensures g.Valid()
    ensures (g.Model(), r) == FinalStep(old(g.Model()), env, g.postProcessPipeline, finalState)
  {
    if |finalState| != 1 {
      return Err(WrongFinalStateLength(|finalState|));
    }
    match finalState[0] {
      case Gpu(t, width, height) =>
        r := ConvertGpuOutput(g, env, t, width, height);
      case Cpu(data, width, height) =>
        r := ConvertCpuOutput(data, width, height);
    }
  }

  /** The GPU branch of `handle_final_process`. */
  method ConvertGpuOutput(g: ImageGenerator, env: GpuContents, t: Texture, width: u32, height: u32)
    returns (r: Result<seq<u8>, Error>)
    requires g.Valid()
    modifies g, g.bufferCache
    ensures g.Valid()
    ensures (g.Model(), r) == GpuBytes(old(g.Model()), env, g.postProcessPipeline, t, width, height)
  {
    var size := U32BufferSize(width, height) as u64;
    var packed := g.GetOrCreateBuffer(size, STORAGE_COPY_SRC);
    var readback := g.GetOrCreateBuffer(size, MAP_READ_COPY_DST);
    g.Enqueue(Submit([FinalEncoder(g.postProcessPipeline, t, width, height, packed, readback)]));
    var epoch := |g.queue|;
    if env.mapFails(epoch) {
      return Err(MapFailed);
    }
    r := Ok(MappedBuffer(env, readback, epoch));
  }
}
