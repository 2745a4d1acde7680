/**
 * The conversion of a rendered texture's sharing information into the
 * object handed to the JavaScript side (an Electron offscreen shared
 * texture), as built for Linux.
 */
module SharedTexture {
  import opened Wrappers
  import opened MachineInts
  import opened Decimal

  /** The DRM fourcc pixel formats either side names, and any other code. */
  datatype DrmFourcc =
    | Abgr8888 | Argb8888 | Xbgr8888 | Xrgb8888 | Abgr16161616f
    | Bgr888 | Rgb888 | R8 | R16
    | OtherFourcc(code: u32)

  /** The formats the conversion has a name for. */
  predicate Named(f: DrmFourcc)
  {
    f == Abgr8888 || f == Argb8888 || f == Xbgr8888 || f == Xrgb8888 || f == Abgr16161616f
  }

  /** One dma-buf plane as the GPU side describes it. */
  datatype Plane = Plane(fd: int, stride: u32, offset: u32, size: u32)

  /** `OffscreenSharedTextureInfo`: the planes, the format modifier, the pixel format and the size. */
  datatype TextureInfo = TextureInfo(planes: seq<Plane>, modifier: u64, pixelFormat: DrmFourcc, width: u32, height: u32)

  datatype Size = Size(width: u32, height: u32)
  datatype ColorSpace = ColorSpace(primaries: string, transfer: string, matrix: string, range: string)
  datatype Rectangle = Rectangle(x: u32, y: u32, width: u32, height: u32)
  datatype Metadata = Metadata(captureUpdateRect: Option<Rectangle>, regionCaptureRect: Option<Rectangle>,
                               sourceSize: Option<Rectangle>, frameCount: Option<u32>)

  /** `SharedTextureHandleNativePixmap` of the JavaScript side. */
  datatype NativePixmap = NativePixmap(planes: seq<Plane>, modifier: string, supportsZeroCopyWebGpuImport: bool)

  /** `NodeOffscreenSharedTextureInfo`. */
  datatype NodeTextureInfo = NodeTextureInfo(widgetType: string, pixelFormat: string, codedSize: Size,
                                             colorSpace: ColorSpace, visibleRect: Rectangle, contentRect: Rectangle,
                                             timestamp: u32, metadata: Option<Metadata>, handle: NativePixmap)

  /** The stride every converted plane gets: one 1920-pixel row of 4 bytes. */
  const FIXED_STRIDE: u32 := 7680
  const UNSUPPORTED_FORMAT_PREFIX: string := "Unsupported pixel format: "

  /** `Debug` text of a format, for the panic message. */
  function FourccName(f: DrmFourcc): string
  {
    match f
    case Abgr8888 => "Abgr8888"
    case Argb8888 => "Argb8888"
    case Xbgr8888 => "Xbgr8888"
    case Xrgb8888 => "Xrgb8888"
    case Abgr16161616f => "Abgr16161616f"
    case Bgr888 => "Bgr888"
    case Rgb888 => "Rgb888"
    case R8 => "R8"
    case R16 => "R16"
    case OtherFourcc(code) => DecimalString(code as nat)
  }

  /** The match on the pixel format: a name for the five named formats, a panic for the rest. */
  function PixelFormatName(f: DrmFourcc): (r: Result<string, string>)
    ensures (f == Abgr8888 || f == Xbgr8888) <==> r == Ok("rgba")
    ensures (f == Argb8888 || f == Xrgb8888) <==> r == Ok("bgra")
    ensures f == Abgr16161616f <==> r == Ok("rgbaf16")
    ensures !Named(f) <==> r.Err?
  {
    match f
    case Abgr8888 => Ok("rgba")
    case Argb8888 => Ok("bgra")
    case Xbgr8888 => Ok("rgba")
    case Xrgb8888 => Ok("bgra")
    case Abgr16161616f => Ok("rgbaf16")
    case _ => Err(UNSUPPORTED_FORMAT_PREFIX + FourccName(f))
  }

  /** The planes of the handle: each keeps its descriptor, offset and size and gets the fixed stride. */
  function ConvertPlanes(planes: seq<Plane>): (r: seq<Plane>)
    ensures |r| == |planes|
    ensures forall i :: 0 <= i < |r| ==>
      r[i].fd == planes[i].fd && r[i].offset == planes[i].offset && r[i].size == planes[i].size && r[i].stride == FIXED_STRIDE
  {
    seq(|planes|, i requires 0 <= i < |planes| => planes[i].(stride := FIXED_STRIDE))
  }

  /** Planes that already have the fixed stride come through unchanged. */
  lemma ConvertPlanesFixed(planes: seq<Plane>)
    requires forall i :: 0 <= i < |planes| ==> planes[i].stride == FIXED_STRIDE
    ensures ConvertPlanes(planes) == planes
  {
    var r := ConvertPlanes(planes);
    forall i | 0 <= i < |planes| ensures r[i] == planes[i] {
    }
  }

  /**
   * `From<&OffscreenSharedTextureInfo>`: an unknown pixel format panics
   * (`Err`); otherwise the size is passed through and everything else is
   * fixed. The pixel format named is always "rgbaf16", whichever of the
   * known formats the texture has.
   */
  function FromTextureInfo(value: TextureInfo): (r: Result<NodeTextureInfo, string>)
    ensures r.Err? <==> !Named(value.pixelFormat)
    ensures r.Err? ==> r.error == UNSUPPORTED_FORMAT_PREFIX + FourccName(value.pixelFormat)
    ensures r.Ok? ==> var info := r.value;
      && info.pixelFormat == "rgbaf16"
      && info.codedSize == Size(value.width, value.height)
      && info.visibleRect == Rectangle(0, 0, value.width, value.height)
      && info.contentRect == info.visibleRect
      && info.widgetType == "frame" && info.timestamp == 0 && info.metadata == None
      && info.colorSpace == ColorSpace("bt709", "srgb", "rgb", "full")
      && info.handle.supportsZeroCopyWebGpuImport
      && info.handle.modifier == DecimalString(value.modifier as nat)
      && info.handle.planes == ConvertPlanes(value.planes)
  {
    var handle := NativePixmap(ConvertPlanes(value.planes), DecimalString(value.modifier as nat), true);
    match PixelFormatName(value.pixelFormat)
    case Err(message) => Err(message)
    case Ok(_) =>
      Ok(NodeTextureInfo("frame", "rgbaf16", Size(value.width, value.height),
                         ColorSpace("bt709", "srgb", "rgb", "full"),
                         Rectangle(0, 0, value.width, value.height), Rectangle(0, 0, value.width, value.height),
                         0, None, handle))
  }
}
