/**
 * The Taichi kernels of the Python compositor. Fields hold `f32` values,
 * modelled as reals; the destination field holds RGB vectors and the layer
 * field vectors of `channels` components. The kernels' parallel loops are
 * written as row-major loops: every layer pixel reads and writes only its
 * own destination pixel, and no two layer pixels share one, so the order
 * does not change the result.
 */
module AperioTaichi {
  import opened MachineInts

  /** One pixel of the destination field: a 3-vector. */
  datatype Rgb = Rgb(red: real, green: real, blue: real)

  /** The channel counts the kernel has a branch for. */
  predicate Supported(channels: int)
  {
    channels == 1 || channels == 3 || channels == 4
  }

  /** Every layer pixel is a vector of `channels` components, as the field's type fixes. */
  predicate LayerShaped(layer: array2<seq<real>>, channels: int)
    reads layer
  {
    forall r, c :: 0 <= r < layer.Length0 && 0 <= c < layer.Length1 ==> |layer[r, c]| == channels
  }

  /** What one layer pixel makes of the destination pixel it lands on. */
  function Written(channels: int, p: seq<real>, base: Rgb): (out: Rgb)
    requires Supported(channels) && |p| == channels
    ensures channels == 3 ==> out == Rgb(p[0], p[1], p[2])
    ensures channels == 1 ==> out == Rgb(p[0], p[0], p[0])
  {
    if channels == 4 then
      var alpha := p[3];
      Rgb(alpha * p[0] + (1.0 - alpha) * base.red,
          alpha * p[1] + (1.0 - alpha) * base.green,
          alpha * p[2] + (1.0 - alpha) * base.blue)
    else if channels == 3 then Rgb(p[0], p[1], p[2])
    else Rgb(p[0], p[0], p[0])
  }

  /** Alpha 0 leaves the destination as it was; alpha 1 replaces it by the layer's colour. */
  lemma AlphaExtremes(p: seq<real>, base: Rgb)
    requires |p| == 4
    ensures p[3] == 0.0 ==> Written(4, p, base) == base
    ensures p[3] == 1.0 ==> Written(4, p, base) == Rgb(p[0], p[1], p[2])
  {
  }

  /** The layer pixel that lands on destination pixel `(ty, tx)`, if any. */
  predicate Covers(layer: array2<seq<real>>, x: int, y: int, ty: int, tx: int)
  {
    0 <= ty - y < layer.Length0 && 0 <= tx - x < layer.Length1
  }

  /** The destination pixel `(ty, tx)` once the whole layer is composited onto `base`. */
  function After(layer: array2<seq<real>>, x: int, y: int, channels: int, ty: int, tx: int, base: Rgb): Rgb
    requires LayerShaped(layer, channels)
    reads layer
  {
    if Supported(channels) && Covers(layer, x, y, ty, tx) then Written(channels, layer[ty - y, tx - x], base)
    else base
  }

  /** The destination pixel `(ty, tx)` once the layer pixels before `(row, col)` in row-major order are done. */
  function Partial(layer: array2<seq<real>>, x: int, y: int, channels: int, row: int, col: int,
                   ty: int, tx: int, base: Rgb): Rgb
    requires LayerShaped(layer, channels)
    reads layer
  {
    if ty - y < row || (ty - y == row && tx - x < col) then After(layer, x, y, channels, ty, tx, base) else base
  }

  /**
   * `composite_layer`: layer pixel `(row, col)` goes to `(y + row, x + col)`
   * when that lies inside the destination. Pixels no layer pixel lands on,
   * and every pixel when `channels` has no branch, keep their value.
   */
  method CompositeLayer(final: array2<Rgb>, layer: array2<seq<real>>, x: int, y: int, channels: int)
    requires LayerShaped(layer, channels)
    modifies final
    ensures forall ty, tx :: 0 <= ty < final.Length0 && 0 <= tx < final.Length1 ==>
      final[ty, tx] == After(layer, x, y, channels, ty, tx, old(final[ty, tx]))
  {
    var row := 0;
    while row < layer.Length0
      invariant 0 <= row <= layer.Length0
      invariant forall ty, tx :: 0 <= ty < final.Length0 && 0 <= tx < final.Length1 ==>
        final[ty, tx] == Partial(layer, x, y, channels, row, 0, ty, tx, old(final[ty, tx]))
    {
      CompositeRow(final, layer, x, y, channels, row);
      row := row + 1;
    }
  }

  /** One row of the layer, column by column. */
  method CompositeRow(final: array2<Rgb>, layer: array2<seq<real>>, x: int, y: int, channels: int, row: int)
    requires LayerShaped(layer, channels) && 0 <= row < layer.Length0
    modifies final
    ensures forall ty, tx :: 0 <= ty < final.Length0 && 0 <= tx < final.Length1 ==>
      final[ty, tx] == (if ty - y == row then After(layer, x, y, channels, ty, tx, old(final[ty, tx])) else old(final[ty, tx]))
  {
    var col := 0;
    while col < layer.Length1
      invariant 0 <= col <= layer.Length1
      invariant forall ty, tx :: 0 <= ty < final.Length0 && 0 <= tx < final.Length1 ==>
        final[ty, tx] == (if ty - y == row && tx - x < col then After(layer, x, y, channels, ty, tx, old(final[ty, tx]))
                          else old(final[ty, tx]))
    {
      var targetX := x + col;
      var targetY := y + row;
      if 0 <= targetY < final.Length0 && 0 <= targetX < final.Length1 {
        var p := layer[row, col];
        var base := final[targetY, targetX];
        assert base == old(final[targetY, targetX]);
        if channels == 4 {
          var alpha := p[3];
          final[targetY, targetX] := Rgb(alpha * p[0] + (1.0 - alpha) * base.red,
                                         alpha * p[1] + (1.0 - alpha) * base.green,
                                         alpha * p[2] + (1.0 - alpha) * base.blue);
        } else if channels == 3 {
          final[targetY, targetX] := Rgb(p[0], p[1], p[2]);
        } else if channels == 1 {
          final[targetY, targetX] := Rgb(p[0], p[0], p[0]);
        }
        assert final[targetY, targetX] == After(layer, x, y, channels, targetY, targetX, base);
      }
      col := col + 1;
    }
  }

  /** Only pixels inside the layer's translated footprint can change. */
  lemma OutsideUnchanged(layer: array2<seq<real>>, x: int, y: int, channels: int, ty: int, tx: int, base: Rgb)
    requires LayerShaped(layer, channels) && !Covers(layer, x, y, ty, tx)
    ensures After(layer, x, y, channels, ty, tx, base) == base
  {
  }

  /** Clipping to `[0, 1]`. */
  function Clip(v: real): (c: real)
    ensures 0.0 <= c <= 1.0
    ensures 0.0 <= v <= 1.0 ==> c == v
    ensures v < 0.0 ==> c == 0.0
    ensures v > 1.0 ==> c == 1.0
  {
    if v < 0.0 then 0.0 else if v > 1.0 then 1.0 else v
  }

  /** One element of `finalize_to_numpy`: clip, scale by 255 and cast, which truncates. */
  function FinalizeValue(v: real): (b: u8)
    ensures b as real <= Clip(v) * 255.0 < b as real + 1.0
  {
    (Clip(v) * 255.0).Floor as u8
  }

  /** One element of `normalize_from_numpy`: the byte as a fraction of 255. */
  function NormalizeValue(b: u8): (v: real)
    ensures 0.0 <= v <= 1.0
  {
    b as real / 255.0
  }

  /** Finalizing a normalized byte gives the byte back, over exact reals. */
  lemma FinalizeNormalized(b: u8)
    ensures FinalizeValue(NormalizeValue(b)) == b
  {
    assert Clip(NormalizeValue(b)) * 255.0 == b as real;
  }

  /** `normalize_from_numpy`, element by element over a flattened field. */
  method NormalizeFromNumpy(field: array<real>, source: array<u8>)
    requires field.Length == source.Length
    modifies field
    ensures forall i :: 0 <= i < field.Length ==> field[i] == NormalizeValue(source[i])
  {
    for i := 0 to field.Length
      invariant forall k :: 0 <= k < i ==> field[k] == NormalizeValue(source[k])
    {
      field[i] := source[i] as real / 255.0;
    }
  }

  /** `finalize_to_numpy`, element by element over a flattened field: every output byte is in range by construction. */
  method FinalizeToNumpy(field: array<real>, target: array<u8>)
    requires field.Length == target.Length
    modifies target
    ensures forall i :: 0 <= i < target.Length ==> target[i] == FinalizeValue(field[i])
  {
    for i := 0 to target.Length
      invariant forall k :: 0 <= k < i ==> target[k] == FinalizeValue(field[k])
    {
      var clipped := if field[i] < 0.0 then 0.0 else if field[i] > 1.0 then 1.0 else field[i];
      target[i] := (clipped * 255.0).Floor as u8;
    }
  }
}
