/**
 * The CPU compositor of the plugin manager: `make_frame` checks its
 * arguments, generates every layer with its object plugin, runs the
 * layer's filters over it in order, and lays the layers over the frame
 * back to front; `make_frames` does that for consecutive frame numbers.
 *
 * Images are `(height, width, channels)` arrays of bytes. A layer is moved
 * to `(x, y)` with a zero border, so what falls outside the frame is cut
 * off. A 1- or 3-channel layer is opaque over its own rectangle; a
 * 4-channel layer is blended with its alpha channel, over the reals and
 * rounded half to even.
 */
module Compositing {
  import opened Wrappers
  import opened MachineInts

  // ---------------------------------------------------------------------
  // Images and the arguments of `make_frame`.

  /**
   * A `uint8` array of shape `(height, width, channels)`: `at(r, c, k)` is
   * channel `k` of the pixel in row `r` and column `c`, and only the values
   * inside the shape mean anything.
   */
  datatype Image = Image(height: nat, width: nat, channels: nat, at: (nat, nat, nat) -> u8)

  /** Two images of the same shape with the same values inside it. */
  ghost predicate SamePixels(a: Image, b: Image)
  {
    && a.height == b.height && a.width == b.width && a.channels == b.channels
    && forall r: nat, c: nat, k: nat :: r < a.height && c < a.width && k < a.channels ==> a.at(r, c, k) == b.at(r, c, k)
  }

  /**
   * What a plugin hands back: a NumPy array, an `ExpandedUMat` (an image
   * and the shape it declares, which nothing checks against the image), or
   * some other object.
   */
  datatype LayerFrame =
    | NdArray(values: Image)
    | Expanded(umat: Image, shape: (int, int, int))
    | OtherObject(typeName: string)

  /** A plugin's parameters: a dictionary the model passes on untouched. */
  type Params = map<string, string>

  datatype Effect = Effect(name: string, parameters: Params)
  datatype Layer = Layer(x: int, y: int, channels: int, objBase: string, objParameters: Params, effects: seq<Effect>)

  /** The values `make_frame` is called with, typed as loosely as Python passes them. */
  datatype LayerArg = LayerDict(layer: Layer) | NotADict
  datatype StructureArg = LayerList(layers: seq<LayerArg>) | NotAList
  datatype IntArg = Int(value: int) | NotAnInt

  /** `ObjectGeneratorBase.generate(frame_number, obj_parameters, (height, width, channels))`; an exception is `Err`. */
  type ObjectGenerate = (int, Params, (int, int, int)) -> Result<LayerFrame, string>
  /** `FilterGeneratorBase.generate(frame_number, layer_frame, parameters)`. */
  type FilterGenerate = (int, LayerFrame, Params) -> Result<LayerFrame, string>

  /** Why `make_frame` fails; every one reaches the caller as `RuntimeError("Failed to make frame: ...")`. */
  datatype FrameError =
    | StructureNotList
    | LayerNotDict
    | SizeNotInt
    | SizeNotPositive
    | NoLayers
    | BadChannels
    | ObjectNotRegistered(objName: string)
    | ShapeMismatch(shape: (int, int, int), expected: (int, int, int))
    | NotAFrame(typeName: string)
    | FilterNotRegistered(filterName: string)
    | FilterShapeMismatch(filter: string, filterShape: (int, int, int), filterExpected: (int, int, int))
    | FilterNotAFrame(filter: string, filterTypeName: string)
    | PluginRaised(message: string)
    | OpenCvError

  /** Why `make_frames` fails. */
  datatype FramesError = AmountNotPositive | FrameFailed(frameNumber: int, cause: FrameError)

  const STRUCTURE_NOT_LIST_MESSAGE: string := "frame_structure must be a list of LayerStructure"
  const LAYER_NOT_DICT_MESSAGE: string := "Each layer in frame_structure must be a LayerStructure"
  const SIZE_NOT_INT_MESSAGE: string := "width and height must be integers"
  const SIZE_NOT_POSITIVE_MESSAGE: string := "width and height must be positive integers"
  const NO_LAYERS_MESSAGE: string := "frame_structure must contain at least one layer"
  const BAD_CHANNELS_MESSAGE: string := "channels must be 1 (grayscale), 3 (RGB), or 4 (RGBA)"
  const MAKE_FRAME_PREFIX: string := "Failed to make frame: "

  /** The text of the errors whose message is fixed in the source; the others carry their data instead. */
  function FixedMessage(e: FrameError): Option<string>
  {
    match e
    case StructureNotList => Some(STRUCTURE_NOT_LIST_MESSAGE)
    case LayerNotDict => Some(LAYER_NOT_DICT_MESSAGE)
    case SizeNotInt => Some(SIZE_NOT_INT_MESSAGE)
    case SizeNotPositive => Some(SIZE_NOT_POSITIVE_MESSAGE)
    case NoLayers => Some(NO_LAYERS_MESSAGE)
    case BadChannels => Some(BAD_CHANNELS_MESSAGE)
    case _ => None
  }

  lemma SamePixelsTransitive(a: Image, b: Image, c: Image)
    requires SamePixels(a, b) && SamePixels(b, c)
    ensures SamePixels(a, c)
  {
  }

  // ---------------------------------------------------------------------
  // Checking the arguments.

  predicate ValidChannels(channels: int)
  {
    channels == 4 || channels == 3 || channels == 1
  }

  /** The checks of `make_frame`, in order, before anything is generated. */
  function Validate(structure: StructureArg, width: IntArg, height: IntArg): Result<(seq<Layer>, nat, nat), FrameError>
  {
    if structure.NotAList? then Err(StructureNotList)
    else if exists i :: 0 <= i < |structure.layers| && structure.layers[i].NotADict? then Err(LayerNotDict)
    else if width.NotAnInt? || height.NotAnInt? then Err(SizeNotInt)
    else if width.value <= 0 || height.value <= 0 then Err(SizeNotPositive)
    else if |structure.layers| == 0 then Err(NoLayers)
    else
      var layers := seq(|structure.layers|, i requires 0 <= i < |structure.layers| => structure.layers[i].layer);
      if exists i :: 0 <= i < |layers| && !ValidChannels(layers[i].channels) then Err(BadChannels)
      else Ok((layers, width.value as nat, height.value as nat))
  }

  /** What the arguments must be for `make_frame` to start generating. */
  predicate WellFormedArguments(structure: StructureArg, width: IntArg, height: IntArg)
  {
    && structure.LayerList?
    && width.Int? && height.Int? && width.value > 0 && height.value > 0
    && |structure.layers| > 0
    && forall i :: 0 <= i < |structure.layers| ==>
         structure.layers[i].LayerDict? && ValidChannels(structure.layers[i].layer.channels)
  }

  /**
   * The checks pass exactly on well-formed arguments and then hand back the
   * layers in order and the size; the first failing check names the error.
   */
  lemma ValidateSpec(structure: StructureArg, width: IntArg, height: IntArg)
    ensures var r := Validate(structure, width, height);
      && (r.Ok? <==> WellFormedArguments(structure, width, height))
      && (r.Ok? ==>
            && |r.value.0| == |structure.layers|
            && (forall i :: 0 <= i < |structure.layers| ==> r.value.0[i] == structure.layers[i].layer)
            && r.value.1 == width.value && r.value.2 == height.value)
      && (structure.NotAList? ==> r == Err(StructureNotList))
      && (structure.LayerList? && width.NotAnInt? ==> r.Err? && (r.error == LayerNotDict || r.error == SizeNotInt))
      && (r.Err? && r.error == BadChannels ==>
            && structure.LayerList? && |structure.layers| > 0
            && width.Int? && height.Int? && width.value > 0 && height.value > 0)
  {
    if structure.LayerList? && !(exists i :: 0 <= i < |structure.layers| && structure.layers[i].NotADict?)
       && width.Int? && height.Int? && width.value > 0 && height.value > 0 && |structure.layers| > 0 {
      var layers := seq(|structure.layers|, i requires 0 <= i < |structure.layers| => structure.layers[i].layer);
      if !(exists i :: 0 <= i < |layers| && !ValidChannels(layers[i].channels)) {
        assert forall i :: 0 <= i < |structure.layers| ==> structure.layers[i].LayerDict? && layers[i] == structure.layers[i].layer;
      } else {
        var i :| 0 <= i < |layers| && !ValidChannels(layers[i].channels);
        assert structure.layers[i].layer == layers[i];
      }
    }
  }

  // ---------------------------------------------------------------------
  // Blending: the whole-frame `cv2` arithmetic of one pixel channel.

  /** `cvRound`: to the nearest integer, halves to the even one. */
  function RoundHalfEven(v: real): (n: int)
    ensures v - 0.5 <= n as real <= v + 0.5
  {
    var f := v.Floor;
    var d := v - f as real;
    if d < 0.5 then f
    else if d > 0.5 then f + 1
    else if f % 2 == 0 then f else f + 1
  }

  /** Rounding a value between two integers stays between them. */
  lemma RoundBetween(v: real, lo: int, hi: int)
    requires lo as real <= v <= hi as real
    ensures lo <= RoundHalfEven(v) <= hi
  {
    var f := v.Floor;
    assert lo <= f <= hi;
    if f == hi {
      assert v == hi as real;
    }
  }

  /**
   * One channel after `alpha/255 * layer + (1 - alpha/255) * frame` and
   * `convertScaleAbs`: opaque alpha gives the layer, zero alpha keeps the
   * frame, and anything between stays between the two.
   */
  function BlendChannel(alpha: u8, layer: u8, base: u8): (b: u8)
    ensures alpha == 255 ==> b == layer
    ensures alpha == 0 ==> b == base
    ensures (layer <= b <= base) || (base <= b <= layer)
  {
    BlendValueBetween(alpha, layer, base);
    RoundHalfEven(BlendValue(alpha, layer, base)) as u8
  }

  /** `alpha/255 * layer + (1 - alpha/255) * frame`, before rounding. */
  function BlendValue(alpha: u8, layer: u8, base: u8): real
  {
    var a := alpha as real / 255.0;
    a * layer as real + (1.0 - a) * base as real
  }

  lemma BlendValueBetween(alpha: u8, layer: u8, base: u8)
    ensures var n := RoundHalfEven(BlendValue(alpha, layer, base));
      && (alpha == 255 ==> n == layer as int)
      && (alpha == 0 ==> n == base as int)
      && ((layer as int <= n <= base as int) || (base as int <= n <= layer as int))
  {
    var v := BlendValue(alpha, layer, base);
    BlendValueRange(alpha, layer, base);
    if layer <= base {
      RoundBetween(v, layer as int, base as int);
    } else {
      RoundBetween(v, base as int, layer as int);
    }
  }

  lemma BlendValueRange(alpha: u8, layer: u8, base: u8)
    ensures alpha == 255 ==> BlendValue(alpha, layer, base) == layer as real
    ensures alpha == 0 ==> BlendValue(alpha, layer, base) == base as real
    ensures layer <= base ==> layer as real <= BlendValue(alpha, layer, base) <= base as real
    ensures base <= layer ==> base as real <= BlendValue(alpha, layer, base) <= layer as real
  {
    ConvexBetween(alpha as real / 255.0, layer as real, base as real, BlendValue(alpha, layer, base));
  }

  lemma MulNonnegative(p: real, q: real)
    requires 0.0 <= p && 0.0 <= q
    ensures 0.0 <= p * q
  {
  }

  /** A convex combination of two values lies between them. */
  lemma ConvexBetween(a: real, x: real, y: real, v: real)
    requires 0.0 <= a <= 1.0 && v == a * x + (1.0 - a) * y
    ensures a == 1.0 ==> v == x
    ensures a == 0.0 ==> v == y
    ensures x <= y ==> x <= v <= y
    ensures y <= x ==> y <= v <= x
  {
    assert v == y + a * (x - y);
    if x <= y {
      MulNonnegative(a, y - x);
      MulNonnegative(1.0 - a, y - x);
    } else {
      MulNonnegative(a, x - y);
      MulNonnegative(1.0 - a, x - y);
    }
  }

  // ---------------------------------------------------------------------
  // Laying one layer over the frame.

  /** The frame's pixel `(r, c)` comes from the layer's pixel `(r - y, c - x)`, if there is one. */
  predicate InFootprint(m: Image, x: int, y: int, r: int, c: int)
  {
    0 <= r - y < m.height && 0 <= c - x < m.width
  }

  /**
   * The layer's colour channel `k` and its alpha at the frame's pixel
   * `(r, c)` after the move (zero outside the layer): a gray layer gives its
   * value to every channel, and only a 4-channel layer has an alpha of its own.
   */
  function MovedChannel(m: Image, channels: int, x: int, y: int, r: int, c: int, k: nat): (u8, u8)
  {
    if !InFootprint(m, x, y, r, c) then (0, 0)
    else
      var (lr, lc) := ((r - y) as nat, (c - x) as nat);
      var colour := if channels == 1 then m.at(lr, lc, 0) else m.at(lr, lc, k);
      var alpha := if channels == 4 then m.at(lr, lc, 3) else 255;
      (colour, alpha)
  }

  /**
   * One layer over a `height x width` 3-channel frame. A layer whose
   * declared shape is empty is skipped; an image whose channels are not the
   * layer's, or that is empty, makes `cv2` fail.
   */
  function Composite(frame: Image, layer: LayerFrame, x: int, y: int, channels: int): (r: Result<Image, FrameError>)
    requires layer.Expanded? && frame.channels == 3 && ValidChannels(channels)
    ensures r.Ok? ==> r.value.height == frame.height && r.value.width == frame.width && r.value.channels == 3
  {
    var m := layer.umat;
    if layer.shape.0 <= 0 || layer.shape.1 <= 0 then Ok(frame)
    else if m.channels as int != channels || m.height == 0 || m.width == 0 then Err(OpenCvError)
    else
      Ok(Image(frame.height, frame.width, 3, (r: nat, c: nat, k: nat) => CompositePixel(frame, m, channels, x, y, r, c, k)))
  }

  /** Channel `k` of the frame's pixel `(r, c)` once the moved layer is blended over it. */
  function CompositePixel(frame: Image, m: Image, channels: int, x: int, y: int, r: nat, c: nat, k: nat): u8
  {
    var (colour, alpha) := MovedChannel(m, channels, x, y, r, c, k);
    BlendChannel(alpha, colour, frame.at(r, c, k))
  }

  /**
   * A 1- or 3-channel layer replaces the frame inside its rectangle (a gray
   * value on every channel) and leaves every other pixel as it was.
   */
  lemma CompositeOpaque(frame: Image, layer: LayerFrame, x: int, y: int, channels: int, r: nat, c: nat, k: nat)
    requires layer.Expanded? && frame.channels == 3 && (channels == 1 || channels == 3)
    requires r < frame.height && c < frame.width && k < 3
    requires Composite(frame, layer, x, y, channels).Ok?
    ensures var out := Composite(frame, layer, x, y, channels).value;
      var m := layer.umat;
      && (layer.shape.0 > 0 && layer.shape.1 > 0 && InFootprint(m, x, y, r, c) ==>
            out.at(r, c, k) == m.at((r - y) as nat, (c - x) as nat, if channels == 1 then 0 else k))
      && (!InFootprint(m, x, y, r, c) ==> out.at(r, c, k) == frame.at(r, c, k))
  {
    var out := Composite(frame, layer, x, y, channels).value;
    if layer.shape.0 > 0 && layer.shape.1 > 0 {
      assert out.at(r, c, k) == CompositePixel(frame, layer.umat, channels, x, y, r, c, k);
    }
  }

  /**
   * A 4-channel layer is blended by its own alpha inside its rectangle:
   * alpha 0 keeps the frame and alpha 255 gives the layer; outside its
   * rectangle nothing changes.
   */
  lemma CompositeBlended(frame: Image, layer: LayerFrame, x: int, y: int, r: nat, c: nat, k: nat)
    requires layer.Expanded? && frame.channels == 3
    requires r < frame.height && c < frame.width && k < 3
    requires Composite(frame, layer, x, y, 4).Ok?
    ensures var out := Composite(frame, layer, x, y, 4).value;
      var m := layer.umat;
      && (layer.shape.0 > 0 && layer.shape.1 > 0 && InFootprint(m, x, y, r, c) ==>
            var (lr, lc) := ((r - y) as nat, (c - x) as nat);
            out.at(r, c, k) == BlendChannel(m.at(lr, lc, 3), m.at(lr, lc, k), frame.at(r, c, k)))
      && (!InFootprint(m, x, y, r, c) ==> out.at(r, c, k) == frame.at(r, c, k))
  {
    var out := Composite(frame, layer, x, y, 4).value;
    if layer.shape.0 > 0 && layer.shape.1 > 0 {
      assert out.at(r, c, k) == CompositePixel(frame, layer.umat, 4, x, y, r, c, k);
    }
  }

  /** A layer placed at or past the right edge changes nothing. */
  lemma CompositeOffFrame(frame: Image, layer: LayerFrame, x: int, y: int, channels: int)
    requires layer.Expanded? && frame.channels == 3 && ValidChannels(channels)
    requires x >= frame.width as int
    requires Composite(frame, layer, x, y, channels).Ok?
    ensures SamePixels(Composite(frame, layer, x, y, channels).value, frame)
  {
    var out := Composite(frame, layer, x, y, channels).value;
    forall r: nat, c: nat, k: nat | r < frame.height && c < frame.width && k < 3
      ensures out.at(r, c, k) == frame.at(r, c, k)
    {
      assert !InFootprint(layer.umat, x, y, r, c);
    }
  }

  // ---------------------------------------------------------------------
  // Generating a layer and running its filters.

  /**
   * The check after every generation: an array must have the expected shape
   * and is wrapped with that shape; an `ExpandedUMat` passes unchecked.
   */
  function CheckGenerated(f: LayerFrame, expected: (int, int, int), filter: Option<string>): (r: Result<LayerFrame, FrameError>)
    ensures r.Ok? ==> r.value.Expanded?
    ensures f.NdArray? ==>
      var shape := (f.values.height as int, f.values.width as int, f.values.channels as int);
      (r.Ok? <==> shape == expected) && (r.Ok? ==> r.value == Expanded(f.values, expected))
    ensures f.Expanded? ==> r == Ok(f)
    ensures f.OtherObject? ==> r.Err?
  {
    match f
    case NdArray(a) =>
      var shape := (a.height as int, a.width as int, a.channels as int);
      if shape != expected then
        Err(if filter.Some? then FilterShapeMismatch(filter.value, shape, expected) else ShapeMismatch(shape, expected))
      else Ok(Expanded(a, shape))
    case Expanded(_, _) => Ok(f)
    case OtherObject(t) => Err(if filter.Some? then FilterNotAFrame(filter.value, t) else NotAFrame(t))
  }

  /** The layer's filters from `j` on, each given the previous one's output. */
  function ApplyEffects(filters: map<string, FilterGenerate>, frameNumber: int, effects: seq<Effect>, j: nat,
                        current: LayerFrame, expected: (int, int, int)): (r: Result<LayerFrame, FrameError>)
    requires j <= |effects| && current.Expanded?
    ensures r.Ok? ==> r.value.Expanded?
    decreases |effects| - j
  {
    if j == |effects| then Ok(current)
    else
      var e := effects[j];
      if e.name !in filters then Err(FilterNotRegistered(e.name))
      else match filters[e.name](frameNumber, current, e.parameters)
        case Err(message) => Err(PluginRaised(message))
        case Ok(f) =>
          match CheckGenerated(f, expected, Some(e.name))
          case Err(err) => Err(err)
          case Ok(next) => ApplyEffects(filters, frameNumber, effects, j + 1, next, expected)
  }

  /** One layer of `make_frame`: generate it, run its filters, lay it over `frame`. */
  function LayerStep(objects: map<string, ObjectGenerate>, filters: map<string, FilterGenerate>, frameNumber: int,
                     layer: Layer, frame: Image): Result<Image, FrameError>
    requires ValidChannels(layer.channels) && frame.channels == 3
  {
    var expected := (frame.height as int, frame.width as int, layer.channels);
    if layer.objBase !in objects then Err(ObjectNotRegistered(layer.objBase))
    else match objects[layer.objBase](frameNumber, layer.objParameters, expected)
      case Err(message) => Err(PluginRaised(message))
      case Ok(f) =>
        match CheckGenerated(f, expected, None)
        case Err(err) => Err(err)
        case Ok(generated) =>
          match ApplyEffects(filters, frameNumber, layer.effects, 0, generated, expected)
          case Err(err) => Err(err)
          case Ok(filtered) => Composite(frame, filtered, layer.x, layer.y, layer.channels)
  }

  predicate AllValidChannels(layers: seq<Layer>)
  {
    forall i :: 0 <= i < |layers| ==> ValidChannels(layers[i].channels)
  }

  /** The layers from `i` on, in list order, each over the result of the ones before. */
  function ComposeFrom(objects: map<string, ObjectGenerate>, filters: map<string, FilterGenerate>, frameNumber: int,
                       layers: seq<Layer>, i: nat, frame: Image): (r: Result<Image, FrameError>)
    requires i <= |layers| && AllValidChannels(layers) && frame.channels == 3
    ensures r.Ok? ==> r.value.height == frame.height && r.value.width == frame.width && r.value.channels == 3
    decreases |layers| - i
  {
    if i == |layers| then Ok(frame)
    else match LayerStep(objects, filters, frameNumber, layers[i], frame)
      case Err(err) => Err(err)
      case Ok(next) => ComposeFrom(objects, filters, frameNumber, layers, i + 1, next)
  }

  /** A `height x width` 3-channel frame whose bytes are `contents`. */
  function FrameOf(height: nat, width: nat, contents: (nat, nat, nat) -> u8): (f: Image)
    ensures f.height == height && f.width == width && f.channels == 3
    ensures forall r: nat, c: nat, k: nat :: f.at(r, c, k) == contents(r, c, k)
  {
    Image(height, width, 3, contents)
  }

  function Black(height: nat, width: nat): (f: Image)
    ensures f.height == height && f.width == width && f.channels == 3
    ensures forall r: nat, c: nat, k: nat :: f.at(r, c, k) == 0
  {
    FrameOf(height, width, (r: nat, c: nat, k: nat) => 0)
  }

  /**
   * `make_frame` as written: the frame starts as `cv2.UMat(height, width,
   * CV_8UC3)`, whose bytes are whatever the allocation held; `uninitialised`
   * stands for them.
   */
  function MakeFrameAsWritten(objects: map<string, ObjectGenerate>, filters: map<string, FilterGenerate>, frameNumber: int,
                              structure: StructureArg, width: IntArg, height: IntArg,
                              uninitialised: (nat, nat, nat) -> u8): Result<Image, FrameError>
  {
    match Validate(structure, width, height)
    case Err(err) => Err(err)
    case Ok((layers, w, h)) =>
      ValidateSpec(structure, width, height);
      ComposeFrom(objects, filters, frameNumber, layers, 0, FrameOf(h, w, uninitialised))
  }

  /** `make_frame` with the frame cleared to black first, as its comment says it is. */
  function MakeFrame(objects: map<string, ObjectGenerate>, filters: map<string, FilterGenerate>, frameNumber: int,
                     structure: StructureArg, width: IntArg, height: IntArg): Result<Image, FrameError>
  {
    match Validate(structure, width, height)
    case Err(err) => Err(err)
    case Ok((layers, w, h)) =>
      ValidateSpec(structure, width, height);
      ComposeFrom(objects, filters, frameNumber, layers, 0, Black(h, w))
  }

  /**
   * The frames `make_frames` submits to its thread pool, frame `start + i`
   * for every `i < amount`, each rendered by `render`.
   */
  function Futures(render: int -> Result<Image, FrameError>, start: int, amount: nat): (fs: seq<Result<Image, FrameError>>)
    ensures |fs| == amount
    ensures forall i :: 0 <= i < amount ==> fs[i] == render(start + i)
  {
    seq(amount, i requires 0 <= i < amount => render(start + i))
  }

  /** Submitting one more frame extends the futures by that frame. */
  lemma FuturesGrow(render: int -> Result<Image, FrameError>, start: int, n: nat)
    ensures Futures(render, start, n + 1) == Futures(render, start, n) + [render(start + n)]
  {
    var longer, shorter := Futures(render, start, n + 1), Futures(render, start, n);
    assert forall i :: 0 <= i < n ==> longer[i] == shorter[i];
  }

  /** Waiting on the futures in submission order: the first failure in that order is raised. */
  function Collect(start: int, futures: seq<Result<Image, FrameError>>, i: nat, acc: seq<Image>): Result<seq<Image>, FramesError>
    requires i <= |futures|
    decreases |futures| - i
  {
    if i == |futures| then Ok(acc)
    else match futures[i]
      case Err(err) => Err(FrameFailed(start + i, err))
      case Ok(f) => Collect(start, futures, i + 1, acc + [f])
  }

  /** `make_frame` with everything but the frame number fixed. */
  function Render(objects: map<string, ObjectGenerate>, filters: map<string, FilterGenerate>,
                  structure: StructureArg, width: IntArg, height: IntArg): int -> Result<Image, FrameError>
  {
    frameNumber => MakeFrame(objects, filters, frameNumber, structure, width, height)
  }

  lemma RenderFrame(objects: map<string, ObjectGenerate>, filters: map<string, FilterGenerate>,
                    structure: StructureArg, width: IntArg, height: IntArg, frameNumber: int)
    ensures Render(objects, filters, structure, width, height)(frameNumber)
         == MakeFrame(objects, filters, frameNumber, structure, width, height)
  {
  }

  /** `make_frames`: frames `start .. start + amount - 1` in order. */
  function MakeFrames(objects: map<string, ObjectGenerate>, filters: map<string, FilterGenerate>, start: int,
                      amount: IntArg, structure: StructureArg, width: IntArg, height: IntArg): (r: Result<seq<Image>, FramesError>)
    ensures amount.NotAnInt? || amount.value <= 0 ==> r == Err(AmountNotPositive)
  {
    if amount.NotAnInt? || amount.value <= 0 then Err(AmountNotPositive)
    else Collect(start, Futures(Render(objects, filters, structure, width, height), start, amount.value as nat), 0, [])
  }

  // ---------------------------------------------------------------------
  // Properties of whole frames.

  /** Arguments that fail a check fail with that check's error whatever the plugins: nothing is generated. */
  lemma ChecksComeFirst(objects: map<string, ObjectGenerate>, filters: map<string, FilterGenerate>, frameNumber: int,
                        structure: StructureArg, width: IntArg, height: IntArg)
    requires !WellFormedArguments(structure, width, height)
    ensures Validate(structure, width, height).Err?
    ensures MakeFrame(objects, filters, frameNumber, structure, width, height) == Err(Validate(structure, width, height).error)
  {
    ValidateSpec(structure, width, height);
  }

  const MAKE_FRAMES_PREFIX: string := "Failed to make frames: "
  const AMOUNT_NOT_POSITIVE_MESSAGE: string := "amount must be a positive integer"

  /** The text of the `RuntimeError` that `make_frame` raises, for the errors whose message is fixed. */
  function FrameErrorText(e: FrameError): Option<string>
  {
    match FixedMessage(e)
    case None => None
    case Some(m) => Some(MAKE_FRAME_PREFIX + m)
  }

  /** The text of the `RuntimeError` that `make_frames` raises around its own or a frame's error. */
  function FramesErrorText(e: FramesError): Option<string>
  {
    match e
    case AmountNotPositive => Some(MAKE_FRAMES_PREFIX + AMOUNT_NOT_POSITIVE_MESSAGE)
    case FrameFailed(_, cause) =>
      match FrameErrorText(cause)
      case None => None
      case Some(t) => Some(MAKE_FRAMES_PREFIX + t)
  }

  /**
   * Each failed check of `make_frame` raises its own fixed message wrapped
   * as "Failed to make frame: ...", the first failing check in source order
   * deciding which.
   */
  lemma CheckFailureText(objects: map<string, ObjectGenerate>, filters: map<string, FilterGenerate>, frameNumber: int,
                         structure: StructureArg, width: IntArg, height: IntArg)
    ensures var r := MakeFrame(objects, filters, frameNumber, structure, width, height);
      && (!WellFormedArguments(structure, width, height) ==> r.Err? && FrameErrorText(r.error).Some?)
      && (structure.NotAList? ==> r.Err? && FrameErrorText(r.error) == Some(MAKE_FRAME_PREFIX + STRUCTURE_NOT_LIST_MESSAGE))
      && (structure.LayerList? && (exists i :: 0 <= i < |structure.layers| && structure.layers[i].NotADict?) ==>
            r.Err? && FrameErrorText(r.error) == Some(MAKE_FRAME_PREFIX + LAYER_NOT_DICT_MESSAGE))
      && (structure.LayerList? && (forall i :: 0 <= i < |structure.layers| ==> structure.layers[i].LayerDict?) ==>
            && (width.NotAnInt? || height.NotAnInt? ==>
                  r.Err? && FrameErrorText(r.error) == Some(MAKE_FRAME_PREFIX + SIZE_NOT_INT_MESSAGE))
            && (width.Int? && height.Int? && (width.value <= 0 || height.value <= 0) ==>
                  r.Err? && FrameErrorText(r.error) == Some(MAKE_FRAME_PREFIX + SIZE_NOT_POSITIVE_MESSAGE))
            && (width.Int? && height.Int? && width.value > 0 && height.value > 0 && |structure.layers| == 0 ==>
                  r.Err? && FrameErrorText(r.error) == Some(MAKE_FRAME_PREFIX + NO_LAYERS_MESSAGE))
            && (width.Int? && height.Int? && width.value > 0 && height.value > 0 &&
                (exists i :: 0 <= i < |structure.layers| && !ValidChannels(structure.layers[i].layer.channels)) ==>
                  r.Err? && FrameErrorText(r.error) == Some(MAKE_FRAME_PREFIX + BAD_CHANNELS_MESSAGE)))
  {
    ValidateSpec(structure, width, height);
    if structure.LayerList? && (forall i :: 0 <= i < |structure.layers| ==> structure.layers[i].LayerDict?)
       && width.Int? && height.Int? && width.value > 0 && height.value > 0
       && (exists i :: 0 <= i < |structure.layers| && !ValidChannels(structure.layers[i].layer.channels)) {
      var i :| 0 <= i < |structure.layers| && !ValidChannels(structure.layers[i].layer.channels);
      var layers := seq(|structure.layers|, j requires 0 <= j < |structure.layers| => structure.layers[j].layer);
      assert layers[i] == structure.layers[i].layer;
    }
  }

  /**
   * The layers are laid in list order: running the first `k` layers and
   * then the rest from that result is running them all.
   */
  lemma {:induction false} ComposeSplit(objects: map<string, ObjectGenerate>, filters: map<string, FilterGenerate>,
                                        frameNumber: int, layers: seq<Layer>, i: nat, k: nat, frame: Image)
    requires i <= k <= |layers| && AllValidChannels(layers) && frame.channels == 3
    ensures AllValidChannels(layers[..k])
    ensures var front := ComposeFrom(objects, filters, frameNumber, layers[..k], i, frame);
      ComposeFrom(objects, filters, frameNumber, layers, i, frame) ==
        if front.Err? then front else ComposeFrom(objects, filters, frameNumber, layers, k, front.value)
    decreases k - i
  {
    if i < k {
      assert layers[..k][i] == layers[i];
      match LayerStep(objects, filters, frameNumber, layers[i], frame)
      case Err(_) =>
      case Ok(next) =>
        ComposeSplit(objects, filters, frameNumber, layers, i + 1, k, next);
    }
  }

  /** Layers that all start at or past the right edge leave the starting frame as it is. */
  lemma {:induction false} ComposeOffFrame(objects: map<string, ObjectGenerate>, filters: map<string, FilterGenerate>,
                                           frameNumber: int, layers: seq<Layer>, i: nat, frame: Image)
    requires i <= |layers| && AllValidChannels(layers) && frame.channels == 3
    requires forall j :: i <= j < |layers| ==> layers[j].x >= frame.width as int
    ensures var r := ComposeFrom(objects, filters, frameNumber, layers, i, frame);
      r.Ok? ==> SamePixels(r.value, frame)
    decreases |layers| - i
  {
    if i < |layers| {
      var layer := layers[i];
      var expected := (frame.height as int, frame.width as int, layer.channels);
      var step := LayerStep(objects, filters, frameNumber, layer, frame);
      if step.Ok? {
        var f := objects[layer.objBase](frameNumber, layer.objParameters, expected).value;
        var generated := CheckGenerated(f, expected, None).value;
        var filtered := ApplyEffects(filters, frameNumber, layer.effects, 0, generated, expected).value;
        CompositeOffFrame(frame, filtered, layer.x, layer.y, layer.channels);
        var next := step.value;
        ComposeOffFrame(objects, filters, frameNumber, layers, i + 1, next);
        var r := ComposeFrom(objects, filters, frameNumber, layers, i + 1, next);
        if r.Ok? {
          SamePixelsTransitive(r.value, next, frame);
        }
      }
    }
  }

  /**
   * As written, a frame whose layers all lie past the right edge comes out
   * as the uninitialised bytes the frame was allocated with.
   */
  lemma UncoveredShowsAllocation(objects: map<string, ObjectGenerate>, filters: map<string, FilterGenerate>,
                                 frameNumber: int, structure: StructureArg, width: IntArg, height: IntArg,
                                 uninitialised: (nat, nat, nat) -> u8)
    requires WellFormedArguments(structure, width, height)
    requires forall i :: 0 <= i < |structure.layers| ==> structure.layers[i].layer.x >= width.value
    ensures var r := MakeFrameAsWritten(objects, filters, frameNumber, structure, width, height, uninitialised);
      r.Ok? ==> SamePixels(r.value, FrameOf(height.value as nat, width.value as nat, uninitialised))
  {
    ValidateSpec(structure, width, height);
    var (layers, w, h) := Validate(structure, width, height).value;
    ComposeOffFrame(objects, filters, frameNumber, layers, 0, FrameOf(h, w, uninitialised));
  }

  /** With the frame cleared first, the same frame comes out black. */
  lemma UncoveredIsBlack(objects: map<string, ObjectGenerate>, filters: map<string, FilterGenerate>,
                         frameNumber: int, structure: StructureArg, width: IntArg, height: IntArg)
    requires WellFormedArguments(structure, width, height)
    requires forall i :: 0 <= i < |structure.layers| ==> structure.layers[i].layer.x >= width.value
    ensures var r := MakeFrame(objects, filters, frameNumber, structure, width, height);
      r.Ok? ==> && r.value.height == height.value && r.value.width == width.value && r.value.channels == 3
                && forall row: nat, col: nat, k: nat :: row < r.value.height && col < r.value.width && k < 3 ==>
                     r.value.at(row, col, k) == 0
  {
    ValidateSpec(structure, width, height);
    var (layers, w, h) := Validate(structure, width, height).value;
    ComposeOffFrame(objects, filters, frameNumber, layers, 0, Black(h, w));
  }

  /**
   * Collecting succeeds exactly when every frame does, and then the result
   * is the frames in order; a failure is the one of the first frame that failed.
   */
  lemma {:induction false} CollectSpec(start: int, futures: seq<Result<Image, FrameError>>, i: nat, acc: seq<Image>)
    requires i <= |futures|
    ensures var r := Collect(start, futures, i, acc);
      && (r.Ok? <==> forall n :: i <= n < |futures| ==> futures[n].Ok?)
      && (r.Ok? ==> |r.value| == |acc| + |futures| - i && r.value[..|acc|] == acc
                    && forall n :: i <= n < |futures| ==> r.value[|acc| + n - i] == futures[n].value)
      && (r.Err? ==>
            exists n :: (i <= n < |futures| && futures[n].Err? && r.error == FrameFailed(start + n, futures[n].error)
                         && forall n' :: i <= n' < n ==> futures[n'].Ok?))
    decreases |futures| - i
  {
    if i < |futures| && futures[i].Ok? {
      var acc' := acc + [futures[i].value];
      CollectSpec(start, futures, i + 1, acc');
      var r := Collect(start, futures, i + 1, acc');
      if r.Ok? {
        assert r.value[..|acc|] == r.value[..|acc'|][..|acc|];
        assert r.value[|acc|] == acc'[|acc|];
      }
    }
  }

  /** Collecting the futures of frames `start .. start + amount - 1`, for any way of rendering a frame. */
  lemma CollectFutures(render: int -> Result<Image, FrameError>, start: int, amount: nat)
    ensures var r := Collect(start, Futures(render, start, amount), 0, []);
      && (r.Ok? <==> forall n :: start <= n < start + amount ==> render(n).Ok?)
      && (r.Ok? ==> |r.value| == amount && forall n :: start <= n < start + amount ==> r.value[n - start] == render(n).value)
      && (r.Err? ==> exists n :: && start <= n < start + amount && render(n).Err?
                                  && r.error == FrameFailed(n, render(n).error)
                                  && forall n' :: start <= n' < n ==> render(n').Ok?)
  {
    var fs := Futures(render, start, amount);
    CollectSpec(start, fs, 0, []);
    assert forall n :: start <= n < start + amount ==> fs[n - start] == render(n);
    var r := Collect(start, fs, 0, []);
    if r.Err? {
      var k :| 0 <= k < |fs| && fs[k].Err? && r.error == FrameFailed(start + k, fs[k].error)
               && forall k' :: 0 <= k' < k ==> fs[k'].Ok?;
      assert fs[k] == render(start + k);
      forall n' | start <= n' < start + k
        ensures render(n').Ok?
      {
        assert fs[n' - start].Ok?;
      }
    }
  }

  /**
   * `make_frames` of a positive amount returns the frames `start ..
   * start + amount - 1` in order when every one of them is made, and
   * otherwise fails with the first frame number, in that order, that failed.
   */
  lemma MakeFramesInOrder(objects: map<string, ObjectGenerate>, filters: map<string, FilterGenerate>, start: int,
                          amount: IntArg, structure: StructureArg, width: IntArg, height: IntArg)
    requires amount.Int? && amount.value > 0
    ensures var r := MakeFrames(objects, filters, start, amount, structure, width, height);
      var render := Render(objects, filters, structure, width, height);
      && (forall n :: render(n) == MakeFrame(objects, filters, n, structure, width, height))
      && (r.Ok? <==> forall n :: start <= n < start + amount.value ==> render(n).Ok?)
      && (r.Ok? ==> && |r.value| == amount.value
                    && forall n :: start <= n < start + amount.value ==> r.value[n - start] == render(n).value)
      && (r.Err? ==> exists n :: && start <= n < start + amount.value && render(n).Err?
                                  && r.error == FrameFailed(n, render(n).error)
                                  && forall n' :: start <= n' < n ==> render(n').Ok?)
  {
    CollectFutures(Render(objects, filters, structure, width, height), start, amount.value as nat);
  }

  /**
   * `make_frames` wraps its own refusal of the amount, and a frame's failed
   * check, in "Failed to make frames: ...".
   */
  lemma MakeFramesText(objects: map<string, ObjectGenerate>, filters: map<string, FilterGenerate>, start: int,
                       amount: IntArg, structure: StructureArg, width: IntArg, height: IntArg)
    ensures var r := MakeFrames(objects, filters, start, amount, structure, width, height);
      && (amount.NotAnInt? || amount.value <= 0 ==>
            r.Err? && FramesErrorText(r.error) == Some(MAKE_FRAMES_PREFIX + AMOUNT_NOT_POSITIVE_MESSAGE))
      && (amount.Int? && amount.value > 0 && !WellFormedArguments(structure, width, height) ==>
            && r.Err? && Validate(structure, width, height).Err?
            && FrameErrorText(Validate(structure, width, height).error).Some?
            && FramesErrorText(r.error) == Some(MAKE_FRAMES_PREFIX + FrameErrorText(Validate(structure, width, height).error).value))
  {
    if amount.Int? && amount.value > 0 && !WellFormedArguments(structure, width, height) {
      ChecksComeFirst(objects, filters, start, structure, width, height);
      CheckFailureText(objects, filters, start, structure, width, height);
      var fs := Futures(Render(objects, filters, structure, width, height), start, amount.value as nat);
      assert fs[0] == MakeFrame(objects, filters, start, structure, width, height);
    }
  }
}
