/**
 * `handle_cpu_func_step` and `download_gpu_texture`: a CPU step first
 * submits the encoders recorded so far, downloads every GPU input through
 * a readback buffer whose rows are padded to 256 bytes, hands all inputs,
 * in their original order, to the caller's function, and yields its output
 * as one CPU entry of the step's declared size.
 */
module CpuFuncProcess {
  import opened Wrappers
  import opened MachineInts
  import opened GpuTypes
  import opened GpuArith
  import opened GeneratorCore

  /** One downloaded texture: its floats and its size. */
  datatype Download = Download(data: seq<F32>, width: u32, height: u32)

  // ---------------------------------------------------------------------
  // Removing the row padding.

  /** The byte offset of byte `k` of row `y` when rows are `pitch` bytes apart. */
  function Offset(y: nat, pitch: nat, k: nat): nat
  {
    y * pitch + k
  }

  /** The first `rows` rows of `rowLen` bytes, `pitch` apart, lie inside `size` bytes. */
  predicate RowsFit(size: nat, pitch: nat, rowLen: nat, rows: nat)
    decreases rows
  {
    rows == 0 || (RowsFit(size, pitch, rowLen, rows - 1) && (rows - 1) * pitch + rowLen <= size)
  }

  /** The first `rows` rows of `data`, each cut to `rowLen` bytes, back to back. */
  function Depadded(data: seq<u8>, pitch: nat, rowLen: nat, rows: nat): (r: seq<u8>)
    requires RowsFit(|data|, pitch, rowLen, rows)
    ensures |r| == rows * rowLen
    decreases rows
  {
    if rows == 0 then []
    else Depadded(data, pitch, rowLen, rows - 1) + data[(rows - 1) * pitch..(rows - 1) * pitch + rowLen]
  }

  lemma MulStep(n: nat, a: nat)
    ensures (n + 1) * a == n * a + a
  {
  }

  lemma MulLe(n: nat, m: nat, a: nat)
    requires n <= m
    ensures n * a <= m * a
  {
  }

  /** Rows fit exactly when the last one does. */
  lemma {:induction false} RowsFitLast(size: nat, pitch: nat, rowLen: nat, rows: nat)
    ensures RowsFit(size, pitch, rowLen, rows) <==> rows == 0 || (rows - 1) * pitch + rowLen <= size
    decreases rows
  {
    if rows > 1 {
      RowsFitLast(size, pitch, rowLen, rows - 1);
      MulLe(rows - 2, rows - 1, pitch);
    }
  }

  /** Byte `k` of row `y` of the result is byte `k` of row `y` of the padded data. */
  lemma {:induction false} DepaddedAt(data: seq<u8>, pitch: nat, rowLen: nat, rows: nat, y: nat, k: nat)
    requires RowsFit(|data|, pitch, rowLen, rows) && y < rows && k < rowLen
    ensures Offset(y, rowLen, k) < |Depadded(data, pitch, rowLen, rows)|
    ensures Offset(y, pitch, k) < |data|
    ensures Depadded(data, pitch, rowLen, rows)[Offset(y, rowLen, k)] == data[Offset(y, pitch, k)]
    decreases rows
  {
    var prev := Depadded(data, pitch, rowLen, rows - 1);
    assert |prev| == (rows - 1) * rowLen;
    if y < rows - 1 {
      DepaddedAt(data, pitch, rowLen, rows - 1, y, k);
    } else {
      assert Offset(y, rowLen, k) == |prev| + k;
    }
  }

  /** Every row of `rowLen` bytes of `packed` is the row of `padded` at the same index. */
  predicate RowsCopied(packed: seq<u8>, padded: seq<u8>, pitch: nat, rowLen: nat, rows: nat)
  {
    forall y: nat, k: nat {:trigger packed[Offset(y, rowLen, k)]} :: y < rows && k < rowLen ==>
      && Offset(y, rowLen, k) < |packed| && Offset(y, pitch, k) < |padded|
      && packed[Offset(y, rowLen, k)] == padded[Offset(y, pitch, k)]
  }

  lemma DepaddedCopiesRows(data: seq<u8>, pitch: nat, rowLen: nat, rows: nat)
    requires RowsFit(|data|, pitch, rowLen, rows)
    ensures RowsCopied(Depadded(data, pitch, rowLen, rows), data, pitch, rowLen, rows)
  {
    var packed := Depadded(data, pitch, rowLen, rows);
    forall y: nat, k: nat | y < rows && k < rowLen
      ensures Offset(y, rowLen, k) < |packed| && Offset(y, pitch, k) < |data|
      ensures packed[Offset(y, rowLen, k)] == data[Offset(y, pitch, k)]
    {
      DepaddedAt(data, pitch, rowLen, rows, y, k);
    }
  }

  /** `get_mapped_range` of a readback buffer holding the padded copy of `t`. */
  function Mapped(env: GpuContents, t: Texture, epoch: nat, size: nat): (r: seq<u8>)
    ensures |r| == size
  {
    seq(size, i requires 0 <= i < size => env.textureByte(t, epoch, i))
  }

  /** The size in bytes of the buffer a texture is read back into. */
  function ReadbackBytes(t: Texture): nat
  {
    ReadbackSize(BytesPerRow(RowSize(t.width)), t.height) as nat
  }

  /**
   * The readback buffer is allocated and the copy of `t` into it, with
   * rows padded to `bytes_per_row`, is submitted on its own.
   */
  function ReadbackSubmitted(m: GenModel, t: Texture): GenModel
  {
    var bytesPerRow := BytesPerRow(RowSize(t.width));
    var (m1, readback) := FreshBuffer(m, ReadbackBytes(t));
    Enqueued(m1, Submit([Encoder([CopyTextureToBuffer(t, readback, bytesPerRow, t.height)])]))
  }

  /**
   * Whether the copy loop of `download_gpu_texture` stays in bounds: every
   * padded row lies inside the mapped range and every packed row inside
   * `pixels`, whose length is `row_size * height` in `u32`.
   */
  predicate CopyInBounds(size: nat, rowSize: u32, bytesPerRow: u32, height: u32)
  {
    && RowsFit(size, bytesPerRow as nat, rowSize as nat, height as nat)
    && RowsFit(Wrap32(rowSize as int * height as int) as nat, rowSize as nat, rowSize as nat, height as nat)
  }

  const SLICE_PANIC: string := "range end index out of range for slice"

  /** The copy loop for rows of `rowSize` bytes, `bytesPerRow` apart: the packed `pixels`, or its out-of-range panic. */
  function PackedRows(data: seq<u8>, rowSize: u32, bytesPerRow: u32, height: u32): Result<seq<u8>, Error>
  {
    if !CopyInBounds(|data|, rowSize, bytesPerRow, height) then Err(Panic(SLICE_PANIC))
    else Ok(Depadded(data, bytesPerRow as nat, rowSize as nat, height as nat))
  }

  /** The copy loop on the mapped bytes of a `width` by `height` texture. */
  function Unpadded(data: seq<u8>, width: u32, height: u32): (r: Result<seq<u8>, Error>)
    ensures r.Ok? ==> |r.value| % 4 == 0
  {
    var rowSize := RowSize(width);
    RowSizeAligned(width);
    RowsAligned(height as nat, rowSize as nat);
    PackedRows(data, rowSize, BytesPerRow(rowSize), height)
  }

  /**
   * `download_gpu_texture` as written: it builds the unpadded `pixels` but
   * returns the whole padded mapped range.
   */
  function DownloadTextureAsWritten(m: GenModel, env: GpuContents, t: Texture): (GenModel, Result<Download, Error>)
  {
    var m2 := ReadbackSubmitted(m, t);
    var epoch := |m2.queue|;
    var data := Mapped(env, t, epoch, ReadbackBytes(t));
    if env.mapFails(epoch) then (m2, Err(MapFailed))
    else match Unpadded(data, t.width, t.height)
      case Err(e) => (m2, Err(e))
      case Ok(_) =>
        ReadbackSizeAligned(RowSize(t.width), t.height);
        (m2, Ok(Download(CastF32(data), t.width, t.height)))
  }

  /**
   * `download_gpu_texture` returning the unpadded `pixels`, as its comment
   * and its callers intend: `4 * width * height` floats.
   */
  function DownloadTexture(m: GenModel, env: GpuContents, t: Texture): (GenModel, Result<Download, Error>)
  {
    var m2 := ReadbackSubmitted(m, t);
    var epoch := |m2.queue|;
    if env.mapFails(epoch) then (m2, Err(MapFailed))
    else match Unpadded(Mapped(env, t, epoch, ReadbackBytes(t)), t.width, t.height)
      case Err(e) => (m2, Err(e))
      case Ok(pixels) => (m2, Ok(Download(CastF32(pixels), t.width, t.height)))
  }

  /** Within the device's texture limits the copy loop stays in bounds. */
  lemma CopyInBoundsWithinLimits(width: u32, height: u32)
    requires width as int <= MAX_TEXTURE_DIMENSION_2D && height as int <= MAX_TEXTURE_DIMENSION_2D
    ensures var rowSize := RowSize(width); var bytesPerRow := BytesPerRow(rowSize);
      CopyInBounds(ReadbackSize(bytesPerRow, height) as nat, rowSize, bytesPerRow, height)
  {
    ExactWithinTextureLimits(width, height);
    var rowSize := RowSize(width);
    var bytesPerRow := BytesPerRow(rowSize);
    var h := height as nat;
    RowsFitLast(ReadbackSize(bytesPerRow, height) as nat, bytesPerRow as nat, rowSize as nat, h);
    RowsFitLast(Wrap32(rowSize as int * height as int) as nat, rowSize as nat, rowSize as nat, h);
    if h > 0 {
      MulStep(h - 1, bytesPerRow as nat);
      MulStep(h - 1, rowSize as nat);
      MulLe(rowSize as nat, 131072, h);
      assert rowSize as int * h <= 131072 * 8192;
    }
  }

  /**
   * Within the texture limits the copy loop packs the rows: `16 * width *
   * height` bytes, row `y` of them being the first `16 * width` bytes of
   * padded row `y`.
   */
  lemma UnpaddedExact(data: seq<u8>, width: u32, height: u32)
    requires width as int <= MAX_TEXTURE_DIMENSION_2D && height as int <= MAX_TEXTURE_DIMENSION_2D
    requires |data| == ReadbackSize(BytesPerRow(RowSize(width)), height) as int
    ensures var r := Unpadded(data, width, height);
      && r.Ok?
      && |r.value| == 16 * width as int * height as int
      && RowsCopied(r.value, data, BytesPerRow(RowSize(width)) as nat, 16 * width as nat, height as nat)
  {
    CopyInBoundsWithinLimits(width, height);
    RowSizeExact(width);
    var rowSize := RowSize(width);
    DepaddedCopiesRows(data, BytesPerRow(rowSize) as nat, rowSize as nat, height as nat);
  }

  /**
   * The download as written returns the padding too: a 1x1 texture comes
   * back as the 64 floats of one 256-byte row, not the 4 of its texel.
   */
  lemma PaddedDownloadTooLong(m: GenModel, env: GpuContents, id: nat)
    requires !env.mapFails(|m.queue| + 1)
    ensures var r := DownloadTextureAsWritten(m, env, Texture(id, 1, 1)).1;
      r.Ok? && |r.value.data| == 64 && 4 * r.value.width as int * r.value.height as int == 4
  {
    CopyInBoundsWithinLimits(1, 1);
    assert RowSize(1) == 16;
    assert BytesPerRow(16) == 256;
    assert ReadbackSize(256, 1) == 256;
  }

  /**
   * Within the texture limits the download fails exactly when mapping
   * fails; otherwise it is `4 * width * height` floats of the texture's
   * size whose bytes are the padded copy's rows, packed.
   */
  lemma DownloadExact(m: GenModel, env: GpuContents, t: Texture)
    requires t.width as int <= MAX_TEXTURE_DIMENSION_2D && t.height as int <= MAX_TEXTURE_DIMENSION_2D
    ensures var r := DownloadTexture(m, env, t).1;
      var epoch := |m.queue| + 1;
      && (r.Err? <==> env.mapFails(epoch))
      && (r.Err? ==> r.error == MapFailed)
      && (r.Ok? ==>
            && r.value.width == t.width && r.value.height == t.height
            && |r.value.data| == 4 * t.width as int * t.height as int
            && RowsCopied(FloatsToBytes(r.value.data), Mapped(env, t, epoch, ReadbackBytes(t)),
                          BytesPerRow(RowSize(t.width)) as nat, 16 * t.width as nat, t.height as nat))
  {
    var epoch := |m.queue| + 1;
    DownloadSteps(m, env, t);
    if !env.mapFails(epoch) {
      UnpaddedFloats(Mapped(env, t, epoch, ReadbackBytes(t)), t.width, t.height);
    }
  }

  /** The download is the copy loop's result on the mapped range, unless mapping fails. */
  lemma DownloadSteps(m: GenModel, env: GpuContents, t: Texture)
    ensures var epoch := |m.queue| + 1;
      DownloadTexture(m, env, t).1 ==
        if env.mapFails(epoch) then Err(MapFailed)
        else match Unpadded(Mapped(env, t, epoch, ReadbackBytes(t)), t.width, t.height)
          case Err(e) => Err(e)
          case Ok(pixels) => Ok(Download(CastF32(pixels), t.width, t.height))
  {
    assert |ReadbackSubmitted(m, t).queue| == |m.queue| + 1;
  }

  /** The floats read from the packed rows have exactly those rows as bytes. */
  lemma UnpaddedFloats(data: seq<u8>, width: u32, height: u32)
    requires width as int <= MAX_TEXTURE_DIMENSION_2D && height as int <= MAX_TEXTURE_DIMENSION_2D
    requires |data| == ReadbackSize(BytesPerRow(RowSize(width)), height) as int
    ensures var r := Unpadded(data, width, height);
      && r.Ok?
      && |CastF32(r.value)| == 4 * width as int * height as int
      && RowsCopied(FloatsToBytes(CastF32(r.value)), data, BytesPerRow(RowSize(width)) as nat, 16 * width as nat, height as nat)
  {
    UnpaddedExact(data, width, height);
    TexelBytes(width as nat, height as nat);
    PackedFloats(Unpadded(data, width, height).value, data, BytesPerRow(RowSize(width)) as nat,
                 16 * width as nat, height as nat, 4 * width as nat * height as nat);
  }

  lemma TexelBytes(w: nat, h: nat)
    ensures 16 * w * h == 4 * (4 * w * h)
  {
  }

  lemma PackedFloats(packed: seq<u8>, padded: seq<u8>, pitch: nat, rowLen: nat, rows: nat, n: nat)
    requires |packed| == 4 * n && RowsCopied(packed, padded, pitch, rowLen, rows)
    ensures |CastF32(packed)| == n
    ensures RowsCopied(FloatsToBytes(CastF32(packed)), padded, pitch, rowLen, rows)
  {
    BytesOfCastF32(packed);
  }

  /** A download keeps the generator valid, allocates one readback buffer and submits one copy. */
  lemma DownloadKeepsValid(m: GenModel, env: GpuContents, t: Texture)
    requires GenValid(m)
    ensures var m' := DownloadTexture(m, env, t).0;
      var bytesPerRow := BytesPerRow(RowSize(t.width));
      var readback := Buffer(m.nextId, ReadbackSize(bytesPerRow, t.height) as nat);
      && GenValid(m')
      && m'.pipelines == m.pipelines && m'.textures == m.textures && m'.buffers == m.buffers
      && m'.queue == m.queue + [Submit([Encoder([CopyTextureToBuffer(t, readback, bytesPerRow, t.height)])])]
  {
    var bytesPerRow := BytesPerRow(RowSize(t.width));
    var size := ReadbackBytes(t);
    FreshAndEnqueueKeepValid(m, size, Submit([]));
    var (m1, readback) := FreshBuffer(m, size);
    FreshAndEnqueueKeepValid(m1, 0, Submit([Encoder([CopyTextureToBuffer(t, readback, bytesPerRow, t.height)])]));
  }

  /** A download fails only by a map failure or a panic, and succeeds with the texture's size. */
  lemma DownloadShape(m: GenModel, env: GpuContents, t: Texture)
    ensures var r := DownloadTexture(m, env, t).1;
      && (r.Err? ==> r.error == MapFailed || r.error.Panic?)
      && (r.Ok? ==> r.value.width == t.width && r.value.height == t.height)
  {
  }

  // ---------------------------------------------------------------------
  // Downloading every GPU input in order.

  /** The textures of the GPU entries of `state` from index `i` on, in order. */
  function GpuTextures(state: ProcessingState, i: nat): (ts: seq<Texture>)
    requires i <= |state|
    ensures |ts| == GpuCountFrom(state, i)
    decreases |state| - i
  {
    if i == |state| then []
    else if state[i].Gpu? then [state[i].texture] + GpuTextures(state, i + 1)
    else GpuTextures(state, i + 1)
  }

  function GpuCountFrom(state: ProcessingState, i: nat): nat
    requires i <= |state|
    decreases |state| - i
  {
    if i == |state| then 0 else (if state[i].Gpu? then 1 else 0) + GpuCountFrom(state, i + 1)
  }

  /**
   * The downloads from index `i` on, `acc` the ones that succeeded so far
   * and `firstErr` the first failure. The futures are polled in order,
   * each to completion; a failed download does not stop the later ones, a
   * panic stops everything, and the result is the first failure.
   */
  function DownloadAll(m: GenModel, env: GpuContents, ts: seq<Texture>, i: nat,
                       acc: seq<Download>, firstErr: Option<Error>): (GenModel, Result<seq<Download>, Error>)
    requires i <= |ts|
    decreases |ts| - i
  {
    if i == |ts| then (m, if firstErr.Some? then Err(firstErr.value) else Ok(acc))
    else
      var (m1, r) := DownloadTexture(m, env, ts[i]);
      match r
      case Ok(d) => DownloadAll(m1, env, ts, i + 1, acc + [d], firstErr)
      case Err(e) =>
        if e.Panic? then (m1, Err(e))
        else DownloadAll(m1, env, ts, i + 1, acc, if firstErr.None? then Some(e) else firstErr)
  }

  /**
   * The outcome `r` of the downloads from index `i` on, after `acc`
   * succeeded and with `firstErr` the first failure so far.
   */
  predicate DownloadsShaped(r: Result<seq<Download>, Error>, ts: seq<Texture>, i: nat,
                            acc: seq<Download>, firstErr: Option<Error>)
    requires i <= |ts|
  {
    && (firstErr.Some? ==> r.Err? && (r.error == firstErr.value || r.error.Panic?))
    && (r.Ok? ==>
          && |r.value| == |acc| + |ts| - i && r.value[..|acc|] == acc
          && forall j :: i <= j < |ts| ==>
               r.value[|acc| + j - i].width == ts[j].width && r.value[|acc| + j - i].height == ts[j].height)
  }

  /** One successful download of the size of `ts[i]` extends the shape by one. */
  lemma DownloadsShapedStep(r: Result<seq<Download>, Error>, ts: seq<Texture>, i: nat,
                            acc: seq<Download>, d: Download, firstErr: Option<Error>)
    requires i < |ts| && d.width == ts[i].width && d.height == ts[i].height
    requires DownloadsShaped(r, ts, i + 1, acc + [d], firstErr)
    ensures DownloadsShaped(r, ts, i, acc, firstErr)
  {
    if r.Ok? {
      assert r.value[..|acc|] == (acc + [d])[..|acc|];
      forall j | i <= j < |ts|
        ensures r.value[|acc| + j - i].width == ts[j].width && r.value[|acc| + j - i].height == ts[j].height
      {
        if j == i {
          assert r.value[..|acc| + 1][|acc|] == d;
        } else {
          assert |acc + [d]| + j - (i + 1) == |acc| + j - i;
        }
      }
    }
  }

  /**
   * If nothing failed there is one download per texture, in texture order,
   * of that texture's size; any failure makes the whole result an error,
   * and that error is the first failure unless a later download panicked.
   */
  lemma {:induction false} DownloadAllShape(m: GenModel, env: GpuContents, ts: seq<Texture>, i: nat,
                                            acc: seq<Download>, firstErr: Option<Error>)
    requires i <= |ts|
    ensures DownloadsShaped(DownloadAll(m, env, ts, i, acc, firstErr).1, ts, i, acc, firstErr)
    decreases |ts| - i
  {
    if i < |ts| {
      var (m1, r) := DownloadTexture(m, env, ts[i]);
      DownloadShape(m, env, ts[i]);
      match r
      case Ok(d) =>
        DownloadAllShape(m1, env, ts, i + 1, acc + [d], firstErr);
        DownloadsShapedStep(DownloadAll(m1, env, ts, i + 1, acc + [d], firstErr).1, ts, i, acc, d, firstErr);
      case Err(e) =>
        if !e.Panic? {
          DownloadAllShape(m1, env, ts, i + 1, acc, if firstErr.None? then Some(e) else firstErr);
        }
    }
  }

  /** Downloading keeps the generator valid and touches none of its caches. */
  lemma {:induction false} DownloadAllValid(m: GenModel, env: GpuContents, ts: seq<Texture>, i: nat,
                                            acc: seq<Download>, firstErr: Option<Error>)
    requires GenValid(m) && i <= |ts|
    ensures var m' := DownloadAll(m, env, ts, i, acc, firstErr).0;
      && GenValid(m')
      && m'.pipelines == m.pipelines && m'.textures == m.textures && m'.buffers == m.buffers
      && |m'.queue| >= |m.queue| && m'.queue[..|m.queue|] == m.queue
    decreases |ts| - i
  {
    if i < |ts| {
      var (m1, r) := DownloadTexture(m, env, ts[i]);
      DownloadKeepsValid(m, env, ts[i]);
      match r
      case Ok(d) =>
        DownloadAllValid(m1, env, ts, i + 1, acc + [d], firstErr);
        var m' := DownloadAll(m1, env, ts, i + 1, acc + [d], firstErr).0;
        assert m'.queue[..|m.queue|] == m'.queue[..|m1.queue|][..|m.queue|];
      case Err(e) =>
        if !e.Panic? {
          DownloadAllValid(m1, env, ts, i + 1, acc, if firstErr.None? then Some(e) else firstErr);
          var m' := DownloadAll(m1, env, ts, i + 1, acc, if firstErr.None? then Some(e) else firstErr).0;
          assert m'.queue[..|m.queue|] == m'.queue[..|m1.queue|][..|m.queue|];
        }
    }
  }

  // ---------------------------------------------------------------------
  // Putting the inputs back in order.

  function Image(o: StepOutput): CpuInputImage
    requires o.Cpu?
  {
    CpuInputImage(o.data, o.width, o.height)
  }

  function DownloadImage(d: Download): CpuInputImage
  {
    CpuInputImage(d.data, d.width, d.height)
  }

  /**
   * The reassembly loop from index `i` on: a CPU entry is kept as it is and
   * a GPU entry takes the download at the front of the queue `dq`.
   */
  function ReassembleFrom(state: ProcessingState, i: nat, dq: seq<Download>, acc: seq<CpuInputImage>): (r: seq<CpuInputImage>)
    requires i <= |state| && |dq| == GpuCountFrom(state, i)
    ensures |r| == |acc| + |state| - i && r[..|acc|] == acc
    decreases |state| - i
  {
    if i == |state| then acc
    else if state[i].Cpu? then ReassembleFrom(state, i + 1, dq, acc + [Image(state[i])])
    else ReassembleFrom(state, i + 1, dq[1..], acc + [DownloadImage(dq[0])])
  }

  /**
   * Reassembly keeps the original order: the input at position `j` is the
   * CPU entry `j` itself, or for a GPU entry the download that is as far
   * from the back of the queue as the GPU entries from `j` on are many,
   * that is, downloads are used first-in first-out.
   */
  lemma {:induction false} ReassembleAt(state: ProcessingState, i: nat, dq: seq<Download>, acc: seq<CpuInputImage>, j: nat)
    requires i <= j < |state| && |dq| == GpuCountFrom(state, i)
    ensures state[j].Cpu? ==> ReassembleFrom(state, i, dq, acc)[|acc| + j - i] == Image(state[j])
    ensures state[j].Gpu? ==>
      && 0 < GpuCountFrom(state, j) <= |dq|
      && ReassembleFrom(state, i, dq, acc)[|acc| + j - i] == DownloadImage(dq[|dq| - GpuCountFrom(state, j)])
    decreases j - i
  {
    var dq' := if state[i].Cpu? then dq else dq[1..];
    var acc' := acc + [if state[i].Cpu? then Image(state[i]) else DownloadImage(dq[0])];
    var r := ReassembleFrom(state, i + 1, dq', acc');
    assert ReassembleFrom(state, i, dq, acc) == r;
    if i == j {
      assert r[..|acc'|][|acc|] == acc'[|acc|];
      GpuCountBound(state, i + 1, |state|);
    } else {
      ReassembleAt(state, i + 1, dq', acc', j);
      assert |acc'| + j - (i + 1) == |acc| + j - i;
      if state[j].Gpu? && state[i].Gpu? {
        assert dq'[|dq'| - GpuCountFrom(state, j)] == dq[|dq| - GpuCountFrom(state, j)];
      }
    }
  }

  /** The download at the queue position of entry `j` is of entry `j`'s own texture. */
  lemma {:induction false} GpuTexturesAt(state: ProcessingState, i: nat, j: nat)
    requires i <= j < |state| && state[j].Gpu?
    ensures 0 < GpuCountFrom(state, j) <= GpuCountFrom(state, i)
    ensures GpuTextures(state, i)[GpuCountFrom(state, i) - GpuCountFrom(state, j)] == state[j].texture
    decreases j - i
  {
    if i < j {
      GpuTexturesAt(state, i + 1, j);
      GpuCountBound(state, i + 1, j);
    }
  }

  lemma {:induction false} GpuCountBound(state: ProcessingState, i: nat, j: nat)
    requires i <= j <= |state|
    ensures GpuCountFrom(state, j) <= GpuCountFrom(state, i)
    decreases j - i
  {
    if i < j {
      GpuCountBound(state, i + 1, j);
    }
  }
  // ---------------------------------------------------------------------
  // The step.

  /** `all_encoders` submitted and drained, if there are any. */
  function SubmitPending(m: GenModel, pending: seq<Encoder>): GenModel
  {
    if pending != [] then Enqueued(m, Submit(pending)) else m
  }

  /**
   * `handle_cpu_func_step` on the value of the generator. The new state is
   * one CPU entry with the step's declared size, whatever size the function
   * reports, and the step records no encoders.
   */
  function CpuFuncStep(m: GenModel, env: GpuContents, state: ProcessingState, func: CompiledFunc,
                       params: Option<seq<u8>>, outputWidth: u32, outputHeight: u32,
                       pending: seq<Encoder>): (GenModel, StepResult)
  {
    var m1 := SubmitPending(m, pending);
    var (m2, downloads) := DownloadAll(m1, env, GpuTextures(state, 0), 0, [], None);
    match downloads
    case Err(e) => (m2, Err(e))
    case Ok(ds) =>
      DownloadAllShape(m1, env, GpuTextures(state, 0), 0, [], None);
      match func.func(ReassembleFrom(state, 0, ds, []), params)
      case Err(message) => (m2, Err(CpuFuncFailed(message)))
      case Ok(out) => (m2, Ok(([Cpu(out.data, outputWidth, outputHeight)], [])))
  }

  /**
   * The pending encoders are submitted first, exactly when there are some;
   * every GPU input is downloaded; a download error or a function error is
   * the step's error; on success the function saw one input per state
   * entry, in order, and the new state is one CPU entry of the declared
   * size holding the function's floats, with no encoders.
   */
  lemma CpuFuncStepFacts(m: GenModel, env: GpuContents, state: ProcessingState, func: CompiledFunc,
                         params: Option<seq<u8>>, outputWidth: u32, outputHeight: u32, pending: seq<Encoder>)
    requires GenValid(m)
    ensures var (m', r) := CpuFuncStep(m, env, state, func, params, outputWidth, outputHeight, pending);
      var m1 := SubmitPending(m, pending);
      var (m2, downloads) := DownloadAll(m1, env, GpuTextures(state, 0), 0, [], None);
      && GenValid(m')
      && (pending != [] ==> m1.queue == m.queue + [Submit(pending)])
      && (pending == [] ==> m1.queue == m.queue)
      && m' == m2
      && (downloads.Err? ==> r == Err(downloads.error))
      && (downloads.Ok? ==>
            && |downloads.value| == GpuCountFrom(state, 0)
            && var inputs := ReassembleFrom(state, 0, downloads.value, []);
               && |inputs| == |state|
               && (func.func(inputs, params).Err? ==> r == Err(CpuFuncFailed(func.func(inputs, params).error)))
               && (func.func(inputs, params).Ok? ==>
                     r == Ok(([Cpu(func.func(inputs, params).value.data, outputWidth, outputHeight)], []))))
  {
    var m1 := SubmitPending(m, pending);
    FreshAndEnqueueKeepValid(m, 0, Submit(pending));
    DownloadAllValid(m1, env, GpuTextures(state, 0), 0, [], None);
    DownloadAllShape(m1, env, GpuTextures(state, 0), 0, [], None);
  }

  // ---------------------------------------------------------------------
  // The imperative code.

  /** `dst.copy_from_slice(src)` for one row. */
  method CopyRow(pixels: array<u8>, dst: nat, data: seq<u8>, src: nat, len: nat)
    requires dst + len <= pixels.Length && src + len <= |data|
    modifies pixels
    ensures pixels[..] == old(pixels[..dst]) + data[src..src + len] + old(pixels[dst + len..])
  {
    forall k | 0 <= k < len {
      pixels[dst + k] := data[src + k];
    }
  }

  /**
   * The copy loop of `download_gpu_texture`: each padded row is copied
   * into the packed `pixels`; `ok` is false where the source panics on an
   * out-of-range slice.
   */
  method DepadRows(data: seq<u8>, rowSize: nat, bytesPerRow: nat, height: nat, pixelLen: nat)
    returns (ok: bool, pixels: array<u8>)
    requires pixelLen <= rowSize * height
    ensures pixels.Length == pixelLen
    ensures ok == (RowsFit(|data|, bytesPerRow, rowSize, height) && RowsFit(pixelLen, rowSize, rowSize, height))
    ensures ok ==> pixels[..] == Depadded(data, bytesPerRow, rowSize, height)
  {
    pixels := new u8[pixelLen](_ => 0);
    var y, src, dst := 0, 0, 0;
    while y < height
      invariant 0 <= y <= height && src == y * bytesPerRow && dst == y * rowSize
      invariant pixels.Length == pixelLen
      invariant RowsFit(|data|, bytesPerRow, rowSize, y) && RowsFit(pixelLen, rowSize, rowSize, y)
      invariant dst <= pixelLen
      invariant pixels[..dst] == Depadded(data, bytesPerRow, rowSize, y)
      decreases height - y
    {
      if src + rowSize > |data| || dst + rowSize > pixelLen {
        if src + rowSize > |data| {
          RowsFitStop(|data|, bytesPerRow, rowSize, y, height);
        } else {
          RowsFitStop(pixelLen, rowSize, rowSize, y, height);
        }
        return false, pixels;
      }
      ghost var before := pixels[..dst];
      CopyRow(pixels, dst, data, src, rowSize);
      assert pixels[..dst + rowSize] == before + data[src..src + rowSize];
      MulStep(y, bytesPerRow);
      MulStep(y, rowSize);
      y, src, dst := y + 1, src + bytesPerRow, dst + rowSize;
    }
    MulComm(height, rowSize);
    assert pixels[..] == pixels[..dst];
    ok := true;
  }

  lemma WrapNoLarger(x: nat)
    ensures Wrap32(x) as int <= x
  {
    if x >= TWO_32 {
      assert Wrap32(x) as int < TWO_32;
    }
  }

  lemma MulComm(a: nat, b: nat)
    ensures a * b == b * a
  {
  }

  /** A row that overruns the buffer rules out every longer run of rows. */
  lemma RowsFitStop(size: nat, pitch: nat, rowLen: nat, rows: nat, total: nat)
    requires rows < total && rows * pitch + rowLen > size
    ensures !RowsFit(size, pitch, rowLen, total)
  {
    if RowsFit(size, pitch, rowLen, total) {
      RowsFitPrefix(size, pitch, rowLen, rows + 1, total);
    }
  }

  lemma {:induction false} RowsFitPrefix(size: nat, pitch: nat, rowLen: nat, rows: nat, total: nat)
    requires rows <= total && RowsFit(size, pitch, rowLen, total)
    ensures RowsFit(size, pitch, rowLen, rows)
    decreases total
  {
    if rows < total {
      RowsFitPrefix(size, pitch, rowLen, rows, total - 1);
    }
  }

  /** `download_gpu_texture`, returning the unpadded pixels. */
  method DownloadGpuTexture(g: ImageGenerator, env: GpuContents, t: Texture) returns (r: Result<Download, Error>)
    requires g.Valid()
    modifies g
    ensures g.Valid()
    ensures (g.Model(), r) == DownloadTexture(old(g.Model()), env, t)
  {
    DownloadKeepsValid(g.Model(), env, t);
    DownloadSteps(g.Model(), env, t);
    ghost var m2 := ReadbackSubmitted(g.Model(), t);
    var rowSize := RowSize(t.width);
    var bytesPerRow := BytesPerRow(rowSize);
    var size := ReadbackSize(bytesPerRow, t.height);
    var readback := g.CreateBuffer(size as nat);
    g.Enqueue(Submit([Encoder([CopyTextureToBuffer(t, readback, bytesPerRow, t.height)])]));
    assert g.Model() == m2;
    var epoch := |g.queue|;
    if env.mapFails(epoch) {
      return Err(MapFailed);
    }
    var pixels := ReadUnpadded(env, t, epoch);
    match pixels {
      case Err(e) => r := Err(e);
      case Ok(p) => r := Ok(Download(CastF32(p), t.width, t.height));
    }
  }

  /** `get_mapped_range` followed by the copy loop. */
  method ReadUnpadded(env: GpuContents, t: Texture, epoch: nat) returns (r: Result<seq<u8>, Error>)
    ensures r == Unpadded(Mapped(env, t, epoch, ReadbackBytes(t)), t.width, t.height)
  {
    var data := Mapped(env, t, epoch, ReadbackBytes(t));
    var rowSize := RowSize(t.width);
    r := Unpad(data, rowSize, BytesPerRow(rowSize), t.height);
  }

  /** The copy loop itself. */
  method Unpad(data: seq<u8>, rowSize: u32, bytesPerRow: u32, height: u32) returns (r: Result<seq<u8>, Error>)
    ensures r == PackedRows(data, rowSize, bytesPerRow, height)
  {
    var pixelLen := Wrap32(rowSize as int * height as int) as nat;
    WrapNoLarger(rowSize as int * height as int);
    var ok, pixels := DepadRows(data, rowSize as nat, bytesPerRow as nat, height as nat, pixelLen);
    if !ok {
      return Err(Panic(SLICE_PANIC));
    }
    r := Ok(pixels[..]);
  }

  /** The first loop of `handle_cpu_func_step`: the GPU entries' textures, in state order. */
  method CollectGpuTextures(state: ProcessingState) returns (textures: seq<Texture>)
    ensures textures == GpuTextures(state, 0)
  {
    textures := [];
    var i := 0;
    while i < |state|
      invariant 0 <= i <= |state|
      invariant textures + GpuTextures(state, i) == GpuTextures(state, 0)
      decreases |state| - i
    {
      if state[i].Gpu? {
        textures := textures + [state[i].texture];
      }
      i := i + 1;
    }
  }

  /** `join_all` over the downloads, collected into one `Result`. */
  method DownloadInputs(g: ImageGenerator, env: GpuContents, textures: seq<Texture>)
    returns (r: Result<seq<Download>, Error>)
    requires g.Valid()
    modifies g
    ensures g.Valid()
    ensures (g.Model(), r) == DownloadAll(old(g.Model()), env, textures, 0, [], None)
  {
    var downloaded: seq<Download> := [];
    var firstErr: Option<Error> := None;
    var k := 0;
    while k < |textures|
      invariant 0 <= k <= |textures|
      invariant g.Valid()
      invariant DownloadAll(g.Model(), env, textures, k, downloaded, firstErr)
             == DownloadAll(old(g.Model()), env, textures, 0, [], None)
      decreases |textures| - k
    {
      var d := DownloadGpuTexture(g, env, textures[k]);
      match d {
        case Ok(v) =>
          downloaded := downloaded + [v];
        case Err(e) =>
          if e.Panic? {
            return Err(e);
          }
          if firstErr.None? {
            firstErr := Some(e);
          }
      }
      k := k + 1;
    }
    r := if firstErr.Some? then Err(firstErr.value) else Ok(downloaded);
  }

  /** The reassembly loop, popping downloads from the front of the queue. */
  method Reassemble(state: ProcessingState, downloaded: seq<Download>) returns (inputs: seq<CpuInputImage>)
    requires |downloaded| == GpuCountFrom(state, 0)
    ensures inputs == ReassembleFrom(state, 0, downloaded, [])
  {
    inputs := [];
    var dq := downloaded;
    var i := 0;
    while i < |state|
      invariant 0 <= i <= |state| && |dq| == GpuCountFrom(state, i)
      invariant ReassembleFrom(state, i, dq, inputs) == ReassembleFrom(state, 0, downloaded, [])
      decreases |state| - i
    {
      if state[i].Cpu? {
        inputs := inputs + [Image(state[i])];
      } else {
        inputs := inputs + [DownloadImage(dq[0])];
        dq := dq[1..];
      }
      i := i + 1;
    }
  }

  /** `handle_cpu_func_step`. */
  method HandleCpuFuncStep(g: ImageGenerator, env: GpuContents, state: ProcessingState, func: CompiledFunc,
                           params: Option<seq<u8>>, outputWidth: u32, outputHeight: u32, pending: seq<Encoder>)
    returns (r: StepResult)
    requires g.Valid()
    modifies g
    ensures g.Valid()
    ensures (g.Model(), r) == CpuFuncStep(old(g.Model()), env, state, func, params, outputWidth, outputHeight, pending)
  {
    if pending != [] {
      g.Enqueue(Submit(pending));
    }
    ghost var m1 := g.Model();
    var textures := CollectGpuTextures(state);
    var downloads := DownloadInputs(g, env, textures);
    if downloads.Err? {
      return Err(downloads.error);
    }
    DownloadAllShape(m1, env, textures, 0, [], None);
    var inputs := Reassemble(state, downloads.value);
    var out := func.func(inputs, params);
    if out.Err? {
      return Err(CpuFuncFailed(out.error));
    }
    r := Ok(([Cpu(out.value.data, outputWidth, outputHeight)], []));
  }
}
