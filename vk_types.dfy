/**
 * The Vulkan vocabulary the display engine works with: result codes,
 * present modes, formats, extents, image layouts and flag bits, and the
 * description of a transfer image (size plus format).
 */
module VkTypes {
  import opened Wrappers

  /** The `vk::Result` values the engine distinguishes; every other code is `OtherError`. */
  datatype VkResult =
    | Success
    | NotReady
    | Timeout
    | SuboptimalKHR
    | ErrorOutOfDateKHR
    | ErrorFormatNotSupported
    | ErrorFeatureNotPresent
    | ErrorDeviceLost
    | OtherError(code: int)

  datatype PresentMode = Immediate | Mailbox | Fifo | FifoRelaxed

  /** A `vk::Format`, by its numeric `VkFormat` value. */
  type Format = int

  const FORMAT_UNDEFINED: Format := 0
  const FORMAT_R8G8B8A8_UNORM: Format := 37
  const FORMAT_R8G8B8A8_SRGB: Format := 43
  const FORMAT_B8G8R8A8_SRGB: Format := 50
  const FORMAT_BC1_RGB_UNORM_BLOCK: Format := 131
  const FORMAT_ASTC_12X12_SRGB_BLOCK: Format := 184
  const FORMAT_G8B8G8R8_422_UNORM: Format := 1000156000
  const FORMAT_G16_B16_R16_3PLANE_444_UNORM: Format := 1000156033

  datatype ColorSpace = SrgbNonlinear | OtherColorSpace(code: int)

  datatype SurfaceFormat = SurfaceFormat(format: Format, colorSpace: ColorSpace)

  datatype Extent2D = Extent2D(width: nat, height: nat)

  /** The size and pixel format of a transfer image. */
  datatype ImageDescription = ImageDescription(size: Extent2D, format: Format)

  /** `ImageDescription::operator==`: width, height and format all agree. */
  predicate SameDescription(a: ImageDescription, b: ImageDescription)
  {
    a.size.width == b.size.width && a.size.height == b.size.height && a.format == b.format
  }

  /** The comparison is the datatype's own equality, and `!=` is its negation. */
  lemma SameDescriptionIsEquality(a: ImageDescription, b: ImageDescription)
    ensures SameDescription(a, b) <==> a == b
    ensures !SameDescription(a, b) <==> a != b
  {
  }

  /** Formats sampled through a Y'CbCr conversion: a contiguous range of `VkFormat` values. */
  predicate IsYCbCrFormat(f: Format)
  {
    FORMAT_G8B8G8R8_422_UNORM <= f <= FORMAT_G16_B16_R16_3PLANE_444_UNORM
  }

  /** Block-compressed formats, from BC1 up to ASTC 12x12. */
  predicate IsCompressedFormat(f: Format)
  {
    FORMAT_BC1_RGB_UNORM_BLOCK <= f <= FORMAT_ASTC_12X12_SRGB_BLOCK
  }

  /** No format is both block-compressed and Y'CbCr, and the RGBA formats are neither. */
  lemma FormatClassesDisjoint(f: Format)
    ensures !(IsYCbCrFormat(f) && IsCompressedFormat(f))
    ensures f == FORMAT_R8G8B8A8_UNORM || f == FORMAT_R8G8B8A8_SRGB || f == FORMAT_B8G8R8A8_SRGB
            ==> !IsYCbCrFormat(f) && !IsCompressedFormat(f)
  {
  }

  datatype ImageLayout = LayoutUndefined | LayoutGeneral | LayoutShaderReadOnlyOptimal | LayoutPreinitialized

  datatype ImageTiling = TilingOptimal | TilingLinear

  /** Bit positions of `vk::MemoryPropertyFlagBits`. */
  const MEMORY_DEVICE_LOCAL: nat := 0
  const MEMORY_HOST_VISIBLE: nat := 1
  const MEMORY_HOST_COHERENT: nat := 2
  const MEMORY_HOST_CACHED: nat := 3

  /** Bit positions of `vk::AccessFlagBits`. */
  const ACCESS_SHADER_READ: nat := 5
  const ACCESS_HOST_READ: nat := 13
  const ACCESS_HOST_WRITE: nat := 14

  /** Bit positions of `vk::CompositeAlphaFlagBitsKHR`. */
  const COMPOSITE_ALPHA_OPAQUE: nat := 0

  /** Bit position of `vk::QueueFlagBits::eGraphics`. */
  const QUEUE_GRAPHICS: nat := 0

  datatype ImageViewType = View2D | OtherViewType
  datatype ImageAspect = AspectColor | OtherAspect
}
