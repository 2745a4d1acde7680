/**
 * The integer arithmetic of the GPU steps, in the source's `u32`: the
 * workgroup count of a 16x16 compute dispatch, the padded row pitch of a
 * texture-to-buffer copy, and the size of the buffer that receives it.
 */
module GpuArith {
  import opened MachineInts

  /** Side of a compute workgroup, in pixels. */
  const WORKGROUP_SIDE: int := 16
  /** Bytes of one RGBA32Float texel (`[f32; 4]`). */
  const TEXEL_BYTES: int := 16
  /** wgpu's required alignment of `bytes_per_row` in a texture copy. */
  const COPY_BYTES_PER_ROW_ALIGNMENT: int := 256
  /** wgpu's default largest width or height of a 2D texture. */
  const MAX_TEXTURE_DIMENSION_2D: int := 8192

  /** `(n + 15) / 16` in `u32`. */
  function WorkgroupCount(n: u32): u32
  {
    Wrap32(n as int + 15) / 16
  }

  /** `width * size_of::<[f32; 4]>()` in `u32`. */
  function RowSize(width: u32): u32
  {
    Wrap32(width as int * TEXEL_BYTES)
  }

  /** `((row_size + 255) / 256) * 256` in `u32`. */
  function BytesPerRow(rowSize: u32): u32
  {
    Wrap32(Wrap32(rowSize as int + 255) as int / 256 * 256)
  }

  /** `bytes_per_row * height` in `u32`. */
  function ReadbackSize(bytesPerRow: u32, height: u32): u32
  {
    Wrap32(bytesPerRow as int * height as int)
  }

  /** The dispatch covers every pixel with the fewest 16-wide groups. */
  lemma WorkgroupsCover(n: u32)
    requires n as int + 15 < TWO_32
    ensures WORKGROUP_SIDE * WorkgroupCount(n) as int >= n as int
    ensures WORKGROUP_SIDE * (WorkgroupCount(n) as int - 1) < n as int
  {
  }

  /** The padded row is the shortest multiple of 256 bytes that holds a row. */
  lemma BytesPerRowPadding(rowSize: u32)
    requires rowSize as int + 255 < TWO_32
    ensures BytesPerRow(rowSize) as int % COPY_BYTES_PER_ROW_ALIGNMENT == 0
    ensures rowSize <= BytesPerRow(rowSize)
    ensures BytesPerRow(rowSize) as int < rowSize as int + COPY_BYTES_PER_ROW_ALIGNMENT
  {
  }

  lemma MultipleOf256(k: int)
    ensures (256 * k) % 256 == 0 && (256 * k) % 4 == 0
  {
    var x := 256 * k;
    var q, r := x / 256, x % 256;
    assert x == 256 * q + r && 0 <= r < 256;
    assert 256 * (k - q) == r;
    var q4, r4 := x / 4, x % 4;
    assert x == 4 * q4 + r4 && 0 <= r4 < 4;
    assert 4 * (64 * k - q4) == r4;
  }

  lemma MulMonotone(a: int, b: int, c: int, d: int)
    requires 0 <= a <= c && 0 <= b <= d
    ensures a * b <= c * d
  {
    assert a * b <= c * b;
    assert c * b <= c * d;
  }

  /** Reducing modulo 2^32 keeps a multiple of 256 a multiple of 256. */
  lemma Wrap32KeepsMultiple(k: int)
    ensures Wrap32(256 * k) as int % 256 == 0
  {
    var x := 256 * k;
    var q := x / TWO_32;
    var r := Wrap32(x) as int;
    assert x == TWO_32 * q + r;
    assert r == 256 * (k - 16777216 * q);
    MultipleOf256(k - 16777216 * q);
  }

  lemma MultipleOf4(k: int)
    ensures (4 * k) % 4 == 0
  {
    var x := 4 * k;
    var q, r := x / 4, x % 4;
    assert x == 4 * q + r && 0 <= r < 4;
    assert 4 * (k - q) == r;
  }

  /** A row is whole texels even where `width * 16` wraps, so whole floats. */
  lemma RowSizeAligned(width: u32)
    ensures RowSize(width) as int % 4 == 0
  {
    var x := width as int * TEXEL_BYTES;
    var q := x / TWO_32;
    var r := RowSize(width) as int;
    assert x == TWO_32 * q + r;
    assert r == 4 * (4 * width as int - 1073741824 * q);
    MultipleOf4(4 * width as int - 1073741824 * q);
  }

  /** Any number of whole-float rows is whole floats. */
  lemma RowsAligned(rows: nat, rowLen: nat)
    requires rowLen % 4 == 0
    ensures (rows * rowLen) % 4 == 0
  {
    var t := rowLen / 4;
    assert rowLen == 4 * t;
    assert rows * rowLen == 4 * (rows * t);
    MultipleOf4(rows * t);
  }

  /** Even where the `u32` arithmetic wraps, the pitch stays 256-aligned and
   * the readback size a multiple of it, so the mapped bytes are whole floats. */
  lemma ReadbackSizeAligned(rowSize: u32, height: u32)
    ensures BytesPerRow(rowSize) as int % 256 == 0
    ensures ReadbackSize(BytesPerRow(rowSize), height) as int % 256 == 0
    ensures ReadbackSize(BytesPerRow(rowSize), height) as int % 4 == 0
  {
    var t := Wrap32(rowSize as int + 255) as int / 256;
    assert 0 <= 256 * t < TWO_32;
    var b := BytesPerRow(rowSize) as int;
    assert b == 256 * t;
    MultipleOf256(t);
    var h := height as int;
    assert b * h == 256 * (t * h);
    Wrap32KeepsMultiple(t * h);
    var z := ReadbackSize(BytesPerRow(rowSize), height) as int;
    assert z == Wrap32(256 * (t * h)) as int;
    assert z == 256 * (z / 256);
    MultipleOf256(z / 256);
  }

  lemma RowSizeExact(width: u32)
    requires width as int <= MAX_TEXTURE_DIMENSION_2D
    ensures RowSize(width) as int == TEXEL_BYTES * width as int
  {
  }

  lemma ReadbackSizeExact(width: u32, height: u32)
    requires width as int <= MAX_TEXTURE_DIMENSION_2D && height as int <= MAX_TEXTURE_DIMENSION_2D
    ensures ReadbackSize(BytesPerRow(RowSize(width)), height) as int == BytesPerRow(RowSize(width)) as int * height as int
  {
    RowSizeExact(width);
    var rs := RowSize(width);
    BytesPerRowPadding(rs);
    var b := BytesPerRow(rs);
    assert b as int <= 131072 + 256;
    MulMonotone(b as int, height as int, 131072 + 256, 8192);
    ProductFits(b, height);
  }

  lemma ProductFits(b: u32, h: u32)
    requires b as int * h as int < TWO_32
    ensures ReadbackSize(b, h) as int == b as int * h as int
  {
  }

  /**
   * Within the device's texture limits nothing wraps: the row size, the
   * padded pitch and the readback size are the exact products.
   */
  lemma ExactWithinTextureLimits(width: u32, height: u32)
    requires width as int <= MAX_TEXTURE_DIMENSION_2D && height as int <= MAX_TEXTURE_DIMENSION_2D
    ensures RowSize(width) as int == TEXEL_BYTES * width as int
    ensures RowSize(width) <= BytesPerRow(RowSize(width))
    ensures ReadbackSize(BytesPerRow(RowSize(width)), height) as int == BytesPerRow(RowSize(width)) as int * height as int
    ensures WorkgroupCount(width) as int * WORKGROUP_SIDE >= width as int
  {
    RowSizeExact(width);
    BytesPerRowPadding(RowSize(width));
    ReadbackSizeExact(width, height);
    WorkgroupsCover(width);
  }
}
