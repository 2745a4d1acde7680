/**
 * The decisions of the Linux texture export: which DRM format a Vulkan
 * format is shared as, which memory type the exported image is allocated
 * from, which physical device and queue family are used, and the single
 * plane the result describes. The Vulkan calls themselves become inputs:
 * what the driver reports and what each call returned.
 */
module VulkanLinux {
  import opened Wrappers
  import opened MachineInts
  import opened SharedTexture

  /** The Vulkan formats of the table, and any other format. */
  datatype VkFormat =
    | R32G32B32A32Sfloat | R8G8B8A8Unorm | B8G8R8A8Unorm | R8G8B8Unorm | B8G8R8Unorm
    | R8Unorm | R16Unorm | R32Sfloat | R16G16B16A16Sfloat | R16G16B16A16Unorm
    | OtherFormat(code: int)

  /** The formats that carry floating-point or 16-bit-per-channel RGBA data. */
  predicate WideRgba(f: VkFormat)
  {
    f == R32G32B32A32Sfloat || f == R32Sfloat || f == R16G16B16A16Sfloat || f == R16G16B16A16Unorm
  }

  const UNSUPPORTED_VULKAN_FORMAT_PREFIX: string := "Unsupported Vulkan format for dmabuf: "
  const NO_MEMORY_TYPE_MESSAGE: string := "No suitable memory type found with external memory support"
  const NO_PHYSICAL_DEVICES_MESSAGE: string := "No Vulkan physical devices found"
  const NO_SUITABLE_DEVICE_MESSAGE: string := "No suitable physical device found with graphics queue support"

  /** `vulkan_format_to_drm`. */
  function VulkanFormatToDrm(format: VkFormat): (r: Result<DrmFourcc, string>)
    ensures format.OtherFormat? <==> r.Err?
    ensures r.Err? ==> r.error == UNSUPPORTED_VULKAN_FORMAT_PREFIX
    ensures WideRgba(format) ==> r == Ok(Abgr8888)
    ensures r.Ok? ==> r.value in {Abgr8888, Argb8888, Bgr888, Rgb888, R8, R16}
  {
    match format
    case R32G32B32A32Sfloat => Ok(Abgr8888)
    case R8G8B8A8Unorm => Ok(Abgr8888)
    case B8G8R8A8Unorm => Ok(Argb8888)
    case R8G8B8Unorm => Ok(Bgr888)
    case B8G8R8Unorm => Ok(Rgb888)
    case R8Unorm => Ok(R8)
    case R16Unorm => Ok(R16)
    case R32Sfloat => Ok(Abgr8888)
    case R16G16B16A16Sfloat => Ok(Abgr8888)
    case R16G16B16A16Unorm => Ok(Abgr8888)
    case OtherFormat(_) => Err(UNSUPPORTED_VULKAN_FORMAT_PREFIX)
  }

  // -------------------------------------------------------------------
  // Memory types.

  const DEVICE_LOCAL: bv32 := 0x1
  const EXPORTABLE: bv32 := 0x2
  const IMPORTABLE: bv32 := 0x4

  /** At most this many memory types are reported. */
  const MAX_MEMORY_TYPES: nat := 32

  /** `flags.contains(required)`. */
  predicate Contains(flags: bv32, required: bv32)
  {
    flags & required == required
  }

  /** `get_external_memory_properties`: every memory type is said to be exportable and importable. */
  function ExternalMemoryFeatures(memoryTypeIndex: nat): (features: bv32)
    ensures Contains(features, EXPORTABLE)
  {
    EXPORTABLE | IMPORTABLE
  }

  /** Memory type `i` may back the image: allowed by the image, with the required properties, and exportable. */
  predicate SuitableMemoryType(memoryTypeBits: bv32, propertyFlags: seq<bv32>, required: bv32, i: nat)
    requires i < |propertyFlags| <= MAX_MEMORY_TYPES
  {
    && memoryTypeBits & (1 as bv32 << i) != 0
    && Contains(propertyFlags[i], required)
    && Contains(ExternalMemoryFeatures(i), EXPORTABLE)
  }

  /** The exportability check never rejects a memory type. */
  lemma ExportabilityAlwaysPasses(memoryTypeBits: bv32, propertyFlags: seq<bv32>, required: bv32, i: nat)
    requires i < |propertyFlags| <= MAX_MEMORY_TYPES
    ensures SuitableMemoryType(memoryTypeBits, propertyFlags, required, i)
        <==> memoryTypeBits & (1 as bv32 << i) != 0 && Contains(propertyFlags[i], required)
  {
  }

  /**
   * `find_memory_type_index`: the smallest suitable index below the
   * reported count, or an error when there is none. `propertyFlags` holds
   * the flags of the `memory_type_count` reported types.
   */
  method FindMemoryTypeIndex(memoryTypeBits: bv32, propertyFlags: seq<bv32>, required: bv32) returns (r: Result<u32, string>)
    requires |propertyFlags| <= MAX_MEMORY_TYPES
    ensures r.Ok? ==> r.value as nat < |propertyFlags|
                      && SuitableMemoryType(memoryTypeBits, propertyFlags, required, r.value as nat)
                      && forall j :: 0 <= j < r.value as nat ==> !SuitableMemoryType(memoryTypeBits, propertyFlags, required, j)
    ensures r.Err? ==> r.error == NO_MEMORY_TYPE_MESSAGE
                       && forall j :: 0 <= j < |propertyFlags| ==> !SuitableMemoryType(memoryTypeBits, propertyFlags, required, j)
  {
    for i := 0 to |propertyFlags|
      invariant forall j :: 0 <= j < i ==> !SuitableMemoryType(memoryTypeBits, propertyFlags, required, j)
    {
      if memoryTypeBits & (1 as bv32 << i) != 0 {
        if Contains(propertyFlags[i], required) {
          var features := ExternalMemoryFeatures(i);
          if Contains(features, EXPORTABLE) {
            return Ok(i as u32);
          }
        }
      }
    }
    return Err(NO_MEMORY_TYPE_MESSAGE);
  }

  // -------------------------------------------------------------------
  // Device selection.

  const GRAPHICS: bv32 := 0x1

  /** The first queue family of a device that supports graphics, as Rust's `find` on the enumeration. */
  function GraphicsFamily(families: seq<bv32>): (r: Option<nat>)
    ensures r.Some? ==> r.value < |families| && Contains(families[r.value], GRAPHICS)
                        && forall k :: 0 <= k < r.value ==> !Contains(families[k], GRAPHICS)
    ensures r.None? ==> forall k :: 0 <= k < |families| ==> !Contains(families[k], GRAPHICS)
    decreases |families|
  {
    if families == [] then None
    else if Contains(families[0], GRAPHICS) then Some(0)
    else match GraphicsFamily(families[1..])
      case None => None
      case Some(k) => Some(k + 1)
  }

  /**
   * The device loop of `get_vulkan_device_info`. `devices[d]` lists the
   * queue-family flags of physical device `d`; the result is the index of
   * the first device with a graphics family and that family's index.
   */
  method SelectDevice(devices: seq<seq<bv32>>) returns (r: Result<(nat, u32), string>)
    requires forall d :: 0 <= d < |devices| ==> |devices[d]| < TWO_32
    ensures devices == [] ==> r == Err(NO_PHYSICAL_DEVICES_MESSAGE)
    ensures r.Ok? ==> var (d, family) := r.value;
      && d < |devices| && GraphicsFamily(devices[d]) == Some(family as nat)
      && forall e :: 0 <= e < d ==> GraphicsFamily(devices[e]).None?
    ensures devices != [] && r.Err? ==>
      r.error == NO_SUITABLE_DEVICE_MESSAGE && forall e :: 0 <= e < |devices| ==> GraphicsFamily(devices[e]).None?
  {
    if devices == [] {
      return Err(NO_PHYSICAL_DEVICES_MESSAGE);
    }
    var suitable: Option<(nat, u32)> := None;
    var d := 0;
    while d < |devices|
      invariant 0 <= d <= |devices|
      invariant suitable.None? && forall e :: 0 <= e < d ==> GraphicsFamily(devices[e]).None?
      decreases |devices| - d
    {
      var graphicsFamily := GraphicsFamily(devices[d]);
      if graphicsFamily.Some? {
        suitable := Some((d, graphicsFamily.value as u32));
        break;
      }
      d := d + 1;
    }
    if suitable.None? {
      return Err(NO_SUITABLE_DEVICE_MESSAGE);
    }
    return Ok(suitable.value);
  }

  // -------------------------------------------------------------------
  // The exported texture.

  /** `get_image_subresource_layout` of the image's colour aspect. */
  datatype SubresourceLayout = SubresourceLayout(offset: u64, size: u64, rowPitch: u64)

  /** `SharedTextureInfo` of `linux.rs`: the planes, the modifier, the DRM format and the size. */
  datatype DmabufInfo = DmabufInfo(planes: seq<Plane>, modifier: u64, pixelFormat: DrmFourcc, width: u32, height: u32)

  /**
   * `get_vulkan_dmabuf_info`, given what each Vulkan call returned, in the
   * order they are made: the image's memory, its dma-buf descriptor, its
   * modifier, then the format conversion. The result has one plane whose
   * stride is the row pitch, cut to 32 bits as `as u32` does.
   */
  function DmabufInfoOf(memory: Result<(), string>, fd: Result<int, string>, modifier: Result<u64, string>,
                        format: VkFormat, layout: SubresourceLayout, width: u32, height: u32): (r: Result<DmabufInfo, string>)
    ensures memory.Err? ==> r == Err(memory.error)
    ensures memory.Ok? && fd.Err? ==> r == Err(fd.error)
    ensures memory.Ok? && fd.Ok? && modifier.Err? ==> r == Err(modifier.error)
    ensures memory.Ok? && fd.Ok? && modifier.Ok? ==> (r.Err? <==> format.OtherFormat?)
    ensures r.Ok? ==> var info := r.value;
      && |info.planes| == 1
      && info.planes[0].fd == fd.value
      && info.planes[0].stride == TruncateToU32(layout.rowPitch)
      && info.planes[0].offset == TruncateToU32(layout.offset)
      && info.planes[0].size == TruncateToU32(layout.size)
      && info.modifier == modifier.value
      && Ok(info.pixelFormat) == VulkanFormatToDrm(format)
      && info.width == width && info.height == height
  {
    if memory.Err? then Err(memory.error)
    else if fd.Err? then Err(fd.error)
    else if modifier.Err? then Err(modifier.error)
    else match VulkanFormatToDrm(format)
      case Err(e) => Err(e)
      case Ok(drmFormat) =>
        var plane := Plane(fd.value, TruncateToU32(layout.rowPitch), TruncateToU32(layout.offset), TruncateToU32(layout.size));
        Ok(DmabufInfo([plane], modifier.value, drmFormat, width, height))
  }

  /** A row pitch that fits in 32 bits is the plane's stride exactly. */
  lemma StrideIsRowPitch(memory: Result<(), string>, fd: Result<int, string>, modifier: Result<u64, string>,
                         format: VkFormat, layout: SubresourceLayout, width: u32, height: u32)
    requires DmabufInfoOf(memory, fd, modifier, format, layout, width, height).Ok?
    requires layout.rowPitch as int < TWO_32
    ensures DmabufInfoOf(memory, fd, modifier, format, layout, width, height).value.planes[0].stride as int
         == layout.rowPitch as int
  {
  }
}
