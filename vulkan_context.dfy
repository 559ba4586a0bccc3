/**
 * The Vulkan context of the newer engine: window parameters, sentinel
 * indices, the device-selection rules, the swapchain attributes chosen
 * from what the surface offers, and the mapping of acquisition results.
 * All Vulkan queries are inputs: a GPU is described by the values the
 * source reads from it.
 */
module VulkanContext {
  import opened Wrappers
  import opened VkTypes

  /** `window_parameters` of the newer header: a size in `uint32_t`. */
  datatype WindowParameters = WindowParameters(width: U32, height: U32)

  /** `is_minimized` as the source computes it: the product is taken modulo 2^32. */
  predicate IsMinimizedAsWritten(p: WindowParameters)
  {
    MulU32(p.width, p.height) == 0
  }

  /** A window is minimized when it has no area: one of its sides is zero. */
  predicate IsMinimized(p: WindowParameters)
  {
    p.width == 0 || p.height == 0
  }

  /** The two readings agree whenever the product fits in 32 bits. */
  lemma MinimizedAgreesWithoutOverflow(p: WindowParameters)
    requires p.width * p.height < UINT32_MODULUS
    ensures IsMinimizedAsWritten(p) <==> IsMinimized(p)
  {
  }

  /** A 65536 x 65536 window has a product of exactly 2^32, which wraps to zero. */
  lemma MinimizedWrapsAt65536()
    ensures IsMinimizedAsWritten(WindowParameters(65536, 65536))
    ensures !IsMinimized(WindowParameters(65536, 65536))
  {
    assert 65536 * 65536 == UINT32_MODULUS;
  }

  /** Every really minimized window is also minimized for the source: it errs only on the side of "minimized". */
  lemma MinimizedAsWrittenIsWeaker(p: WindowParameters)
    ensures IsMinimized(p) ==> IsMinimizedAsWritten(p)
  {
  }

  const NO_GPU_SELECTED: U32 := UINT32_MAX
  const NO_QUEUE_INDEX_FOUND: U32 := UINT32_MAX
  const SWAPCHAIN_IMAGE_OUT_OF_DATE: U32 := UINT32_MAX
  const SWAPCHAIN_IMAGE_TIMEOUT: U32 := UINT32_MAX - 1

  /** `default_image_view_create_info`: the fields of the view description the engine sets. */
  datatype ImageViewCreateInfo = ImageViewCreateInfo(
    viewType: ImageViewType, format: Format, aspect: ImageAspect,
    baseMipLevel: nat, levelCount: nat, baseArrayLayer: nat, layerCount: nat)

  function DefaultImageViewCreateInfo(format: Format): (info: ImageViewCreateInfo)
    ensures info.format == format && info.viewType == View2D && info.aspect == AspectColor
    ensures info.levelCount == 1 && info.layerCount == 1
    ensures info.baseMipLevel == 0 && info.baseArrayLayer == 0
  {
    ImageViewCreateInfo(View2D, format, AspectColor, 0, 1, 0, 1)
  }

  // ---------------------------------------------------------------- devices

  datatype DeviceType = DiscreteGpu | IntegratedGpu | OtherDeviceType

  /** What `getQueueFamilyProperties` and `getSurfaceSupportKHR` report for one family. */
  datatype QueueFamily = QueueFamily(flags: Mask, surfaceSupported: bool)

  /** A physical device, by the properties the selection reads; `handle` orders equal names. */
  datatype Gpu = Gpu(
    name: string, handle: nat, deviceType: DeviceType,
    extensions: seq<string>, queueFamilies: seq<QueueFamily>)

  const REQUIRED_GPU_EXTENSIONS: seq<string> := ["VK_KHR_swapchain"]

  /** A family can be used: graphics capable, and able to present when there is a surface. */
  predicate FamilyUsable(f: QueueFamily, hasSurface: bool)
  {
    (!hasSurface || f.surfaceSupported) && QUEUE_GRAPHICS in f.flags
  }

  predicate HasExtensions(gpu: Gpu, required: seq<string>)
  {
    forall i :: 0 <= i < |required| ==> required[i] in gpu.extensions
  }

  predicate HasUsableFamily(gpu: Gpu, hasSurface: bool)
  {
    exists i :: 0 <= i < |gpu.queueFamilies| && FamilyUsable(gpu.queueFamilies[i], hasSurface)
  }

  /** `is_gpu_suitable`: the swapchain extension and a usable queue family. */
  predicate Suitable(gpu: Gpu, hasSurface: bool)
  {
    HasExtensions(gpu, REQUIRED_GPU_EXTENSIONS) && HasUsableFamily(gpu, hasSurface)
  }

  /**
   * `check_device_extensions`: true iff every required extension is offered.
   * The first missing one fails the call when `propagateError` is set.
   */
  method CheckDeviceExtensions(propagateError: bool, required: seq<string>, available: seq<string>)
    returns (r: Result<bool>)
    ensures r.Ok? ==> (r.value <==> forall i :: 0 <= i < |required| ==> required[i] in available)
    ensures r.Err? <==> propagateError && exists i :: 0 <= i < |required| && required[i] !in available
    ensures r.Err? ==> (exists i :: 0 <= i < |required| && required[i] !in available
                          && (forall j :: 0 <= j < i ==> required[j] in available)
                          && r.message == "Device extension " + required[i] + " is not supported.")
  {
    var i := 0;
    while i < |required|
      invariant 0 <= i <= |required|
      invariant forall j :: 0 <= j < i ==> required[j] in available
    {
      if required[i] !in available {
        if propagateError {
          return Err("Device extension " + required[i] + " is not supported.");
        }
        return Ok(false);
      }
      i := i + 1;
    }
    return Ok(true);
  }

  /** `get_queue_family_index`: the first usable family, or `no_queue_index_found`. */
  method GetQueueFamilyIndex(families: seq<QueueFamily>, hasSurface: bool) returns (index: U32)
    requires |families| < UINT32_MAX
    ensures index == NO_QUEUE_INDEX_FOUND <==> forall i :: 0 <= i < |families| ==> !FamilyUsable(families[i], hasSurface)
    ensures index != NO_QUEUE_INDEX_FOUND ==>
      index < |families| && FamilyUsable(families[index], hasSurface)
      && forall j :: 0 <= j < index ==> !FamilyUsable(families[j], hasSurface)
  {
    index := NO_QUEUE_INDEX_FOUND;
    var i := 0;
    while i < |families|
      invariant 0 <= i <= |families|
      invariant forall j :: 0 <= j < i ==> !FamilyUsable(families[j], hasSurface)
    {
      var surfaceSupported := !hasSurface || families[i].surfaceSupported;
      if surfaceSupported && QUEUE_GRAPHICS in families[i].flags {
        index := i;
        return;
      }
      i := i + 1;
    }
  }

  /** `is_gpu_suitable`: only a missing extension with `propagateError` set is an error. */
  method IsGpuSuitable(propagateError: bool, gpu: Gpu, hasSurface: bool) returns (r: Result<bool>)
    requires |gpu.queueFamilies| < UINT32_MAX
    ensures r.Ok? ==> (r.value <==> Suitable(gpu, hasSurface))
    ensures r.Err? <==> propagateError && !HasExtensions(gpu, REQUIRED_GPU_EXTENSIONS)
  {
    r := CheckDeviceExtensions(propagateError, REQUIRED_GPU_EXTENSIONS, gpu.extensions);
    if r.Err? || !r.value {
      return;
    }
    var index := GetQueueFamilyIndex(gpu.queueFamilies, hasSurface);
    if index == NO_QUEUE_INDEX_FOUND {
      r := Ok(false);
    }
  }

  predicate FamiliesFit(gpus: seq<Gpu>)
  {
    forall i :: 0 <= i < |gpus| ==> |gpus[i].queueFamilies| < UINT32_MAX
  }

  /** The GPUs a pass of `choose_suitable_GPU` considers: one device type, or any. */
  predicate Candidate(gpu: Gpu, kind: Option<DeviceType>)
  {
    Suitable(gpu, true) && (kind.None? || gpu.deviceType == kind.value)
  }

  /** One pass of `choose_suitable_GPU`: the first suitable GPU of the given type. */
  method FirstSuitable(gpus: seq<Gpu>, kind: Option<DeviceType>) returns (found: Option<nat>)
    requires FamiliesFit(gpus)
    ensures found.None? <==> forall i :: 0 <= i < |gpus| ==> !Candidate(gpus[i], kind)
    ensures found.Some? ==> (found.value < |gpus| && Candidate(gpus[found.value], kind)
                             && forall j :: 0 <= j < found.value ==> !Candidate(gpus[j], kind))
  {
    var i := 0;
    while i < |gpus|
      invariant 0 <= i <= |gpus|
      invariant forall j :: 0 <= j < i ==> !Candidate(gpus[j], kind)
    {
      if kind.None? || gpus[i].deviceType == kind.value {
        var suitable := IsGpuSuitable(false, gpus[i], true);
        if suitable.value {
          return Some(i);
        }
      }
      i := i + 1;
    }
    return None;
  }

  /**
   * `choose_suitable_GPU`: discrete GPUs first, then integrated ones, then any;
   * within a pass the first suitable one in enumeration order.
   */
  method ChooseSuitableGpu(gpus: seq<Gpu>) returns (r: Result<nat>)
    requires FamiliesFit(gpus)
    ensures r.Err? <==> forall i :: 0 <= i < |gpus| ==> !Suitable(gpus[i], true)
    ensures r.Err? ==> r.message == "No suitable gpu found."
    ensures r.Ok? ==> r.value < |gpus| && Suitable(gpus[r.value], true)
    ensures r.Ok? && (exists i :: 0 <= i < |gpus| && Candidate(gpus[i], Some(DiscreteGpu))) ==>
      gpus[r.value].deviceType == DiscreteGpu
      && forall j :: 0 <= j < r.value ==> !Candidate(gpus[j], Some(DiscreteGpu))
    ensures r.Ok? && (forall i :: 0 <= i < |gpus| ==> !Candidate(gpus[i], Some(DiscreteGpu)))
                  && (exists i :: 0 <= i < |gpus| && Candidate(gpus[i], Some(IntegratedGpu))) ==>
      gpus[r.value].deviceType == IntegratedGpu
      && forall j :: 0 <= j < r.value ==> !Candidate(gpus[j], Some(IntegratedGpu))
    ensures r.Ok? && (forall i :: 0 <= i < |gpus| ==> !Candidate(gpus[i], Some(DiscreteGpu)))
                  && (forall i :: 0 <= i < |gpus| ==> !Candidate(gpus[i], Some(IntegratedGpu))) ==>
      forall j :: 0 <= j < r.value ==> !Suitable(gpus[j], true)
  {
    var found := FirstSuitable(gpus, Some(DiscreteGpu));
    if found.Some? {
      return Ok(found.value);
    }
    found := FirstSuitable(gpus, Some(IntegratedGpu));
    if found.Some? {
      return Ok(found.value);
    }
    found := FirstSuitable(gpus, None);
    if found.Some? {
      return Ok(found.value);
    }
    return Err("No suitable gpu found.");
  }

  // ------------------------------------------------- choosing a GPU by index

  /** `std::string` ordering: lexicographic by character, a proper prefix first. */
  predicate NameLess(a: string, b: string)
    decreases |a|
  {
    if |a| == 0 then |b| > 0
    else if |b| == 0 then false
    else if a[0] != b[0] then a[0] < b[0]
    else NameLess(a[1..], b[1..])
  }

  lemma {:induction false} NameLessTrichotomy(a: string, b: string)
    ensures NameLess(a, b) || a == b || NameLess(b, a)
    ensures !(NameLess(a, b) && NameLess(b, a))
    decreases |a|
  {
    if |a| > 0 && |b| > 0 && a[0] == b[0] {
      NameLessTrichotomy(a[1..], b[1..]);
      if a[1..] == b[1..] {
        assert a == [a[0]] + a[1..] && b == [b[0]] + b[1..];
      }
    }
  }

  lemma {:induction false} NameLessTransitive(a: string, b: string, c: string)
    requires NameLess(a, b) && NameLess(b, c)
    ensures NameLess(a, c)
    decreases |a|
  {
    if |a| > 0 && a[0] == b[0] && b[0] == c[0] {
      NameLessTransitive(a[1..], b[1..], c[1..]);
    }
  }

  lemma {:induction false} NameLessIrreflexive(a: string)
    ensures !NameLess(a, a)
    decreases |a|
  {
    if |a| > 0 {
      NameLessIrreflexive(a[1..]);
    }
  }

  /** The ordering of the `(name, device)` pairs that `choose_gpu_by_index` sorts. */
  predicate GpuLess(a: Gpu, b: Gpu)
  {
    NameLess(a.name, b.name) || (a.name == b.name && a.handle < b.handle)
  }

  predicate GpuLessEq(a: Gpu, b: Gpu)
  {
    GpuLess(a, b) || (a.name == b.name && a.handle == b.handle)
  }

  lemma GpuLessTotal(a: Gpu, b: Gpu)
    ensures GpuLess(a, b) || GpuLessEq(b, a)
  {
    NameLessTrichotomy(a.name, b.name);
  }

  lemma GpuLessEqTransitive(a: Gpu, b: Gpu, c: Gpu)
    requires GpuLessEq(a, b) && GpuLessEq(b, c)
    ensures GpuLessEq(a, c)
  {
    if NameLess(a.name, b.name) && NameLess(b.name, c.name) {
      NameLessTransitive(a.name, b.name, c.name);
    }
  }

  predicate SortedByName(s: seq<Gpu>)
  {
    forall i :: 0 < i < |s| ==> GpuLessEq(s[i - 1], s[i])
  }

  function Insert(g: Gpu, s: seq<Gpu>): (r: seq<Gpu>)
    ensures multiset(r) == multiset(s) + multiset{g}
    ensures |r| == |s| + 1
    ensures r[0] == g || (|s| > 0 && r[0] == s[0])
  {
    if s == [] || !GpuLess(s[0], g) then [g] + s
    else
      assert s == [s[0]] + s[1..];
      [s[0]] + Insert(g, s[1..])
  }

  lemma {:induction false} InsertSorted(g: Gpu, s: seq<Gpu>)
    requires SortedByName(s)
    ensures SortedByName(Insert(g, s))
  {
    if s == [] {
    } else if !GpuLess(s[0], g) {
      GpuLessTotal(s[0], g);
    } else {
      InsertSorted(g, s[1..]);
      var t := Insert(g, s[1..]);
      assert GpuLessEq(s[0], t[0]);
    }
  }

  /** `std::sort` over the pairs: an ascending permutation. */
  function SortGpus(gpus: seq<Gpu>): (r: seq<Gpu>)
    ensures multiset(r) == multiset(gpus) && |r| == |gpus|
    ensures SortedByName(r)
  {
    if gpus == [] then []
    else
      var rest := SortGpus(gpus[1..]);
      InsertSorted(gpus[0], rest);
      assert gpus == [gpus[0]] + gpus[1..];
      Insert(gpus[0], rest)
  }

  /** In the sorted list no later entry is smaller than an earlier one. */
  lemma {:induction false} SortedPairwise(s: seq<Gpu>, i: nat, j: nat)
    requires SortedByName(s) && i <= j < |s|
    ensures GpuLessEq(s[i], s[j])
    decreases j - i
  {
    if i < j {
      SortedPairwise(s, i, j - 1);
      GpuLessEqTransitive(s[i], s[j - 1], s[j]);
    }
  }

  /** `choose_gpu_by_index`: the index-th GPU in name order, or an error for an index out of range. */
  function ChooseGpuByIndex(gpus: seq<Gpu>, index: U32): (r: Result<Gpu>)
    ensures r.Err? <==> index >= |gpus|
    ensures r.Err? ==> r.message == "GPU index is not valid."
    ensures r.Ok? ==> (r.value in gpus && r.value == SortGpus(gpus)[index]
                       && (forall j :: 0 <= j < index ==> GpuLessEq(SortGpus(gpus)[j], r.value))
                       && (forall j :: index <= j < |gpus| ==> GpuLessEq(r.value, SortGpus(gpus)[j])))
  {
    if index >= |gpus| then Err("GPU index is not valid.")
    else
      var sorted := SortGpus(gpus);
      assert sorted[index] in multiset(gpus);
      forall j | 0 <= j < |gpus|
        ensures j < index ==> GpuLessEq(sorted[j], sorted[index])
        ensures index <= j ==> GpuLessEq(sorted[index], sorted[j])
      {
        if j < index { SortedPairwise(sorted, j, index); } else { SortedPairwise(sorted, index, j); }
      }
      Ok(sorted[index])
  }

  // ------------------------------------------------------------- swapchain

  /** The lowest set bit: `get_composite_alpha` shifts a one bit left until it meets the mask. */
  method GetCompositeAlpha(capabilities: Mask) returns (bit: nat)
    requires IsMask32(capabilities) && capabilities != {}
    ensures bit in capabilities
    ensures forall b :: b in capabilities ==> bit <= b
  {
    ghost var some :| some in capabilities;
    bit := 0;
    while bit !in capabilities
      invariant bit <= some
      invariant forall b :: b in capabilities ==> bit <= b
      decreases some - bit
    {
      bit := bit + 1;
    }
  }

  /** What `getSurfaceCapabilitiesKHR` reports and the swapchain creation reads. */
  datatype SurfaceCapabilities = SurfaceCapabilities(
    minImageCount: U32, maxImageCount: U32,
    minImageExtent: Extent2D, maxImageExtent: Extent2D,
    supportedCompositeAlpha: Mask)

  predicate CapabilitiesValid(c: SurfaceCapabilities)
  {
    && c.minImageExtent.width <= c.maxImageExtent.width
    && c.minImageExtent.height <= c.maxImageExtent.height
    && IsMask32(c.supportedCompositeAlpha) && c.supportedCompositeAlpha != {}
  }

  /** `std::clamp(v, lo, hi)`. */
  function Clamp(v: nat, lo: nat, hi: nat): (r: nat)
    requires lo <= hi
    ensures lo <= r <= hi
    ensures lo <= v <= hi ==> r == v
    ensures v < lo ==> r == lo
    ensures v > hi ==> r == hi
  {
    if v < lo then lo else if hi < v then hi else v
  }

  /** The swapchain extent: the window size clamped into what the surface allows. */
  function ClampExtent(size: Extent2D, c: SurfaceCapabilities): (r: Extent2D)
    requires CapabilitiesValid(c)
    ensures c.minImageExtent.width <= r.width <= c.maxImageExtent.width
    ensures c.minImageExtent.height <= r.height <= c.maxImageExtent.height
    ensures c.minImageExtent.width <= size.width <= c.maxImageExtent.width ==> r.width == size.width
    ensures c.minImageExtent.height <= size.height <= c.maxImageExtent.height ==> r.height == size.height
  {
    Extent2D(Clamp(size.width, c.minImageExtent.width, c.maxImageExtent.width),
             Clamp(size.height, c.minImageExtent.height, c.maxImageExtent.height))
  }

  /** At least two images (double buffering), at least what the surface needs, at most its maximum if it has one. */
  function ImageCount(c: SurfaceCapabilities): (n: nat)
    ensures c.maxImageCount == 0 ==> n >= 2 && n >= c.minImageCount
    ensures c.maxImageCount != 0 ==> n <= c.maxImageCount
    ensures c.maxImageCount != 0 && c.maxImageCount >= Max(2, c.minImageCount) ==> n == Max(2, c.minImageCount)
    ensures n == 2 || n == c.minImageCount || n == c.maxImageCount
  {
    var count := Max(2, c.minImageCount);
    if c.maxImageCount != 0 then Min(count, c.maxImageCount) else count
  }

  /** The present mode used when the preferred one is not offered. */
  function AlternativeMode(preferred: PresentMode): PresentMode
  {
    if preferred == Immediate then Mailbox else Fifo
  }

  /** `vulkan_context::get_present_mode`: the preferred mode, else its alternative, else the first offered. */
  function ChoosePresentMode(preferred: PresentMode, modes: seq<PresentMode>): (m: PresentMode)
    requires |modes| > 0
    ensures m in modes
    ensures preferred in modes ==> m == preferred
    ensures preferred !in modes && AlternativeMode(preferred) in modes ==> m == AlternativeMode(preferred)
    ensures preferred !in modes && AlternativeMode(preferred) !in modes ==> m == modes[0]
  {
    if preferred in modes then preferred
    else if AlternativeMode(preferred) in modes then AlternativeMode(preferred)
    else modes[0]
  }

  /** Only Immediate falls back to Mailbox; any other preference falls back to Fifo. */
  lemma PresentModeFallbacks(modes: seq<PresentMode>)
    requires |modes| > 0 && Mailbox in modes && Fifo in modes
    ensures Immediate !in modes ==> ChoosePresentMode(Immediate, modes) == Mailbox
    ensures FifoRelaxed !in modes ==> ChoosePresentMode(FifoRelaxed, modes) == Fifo
    ensures ChoosePresentMode(Mailbox, modes) == Mailbox
  {
  }

  const DEFAULT_SURFACE_FORMAT: SurfaceFormat := SurfaceFormat(FORMAT_B8G8R8A8_SRGB, SrgbNonlinear)

  /** `get_surface_format`: B8G8R8A8 sRGB with the sRGB colour space if offered, else the first format. */
  function ChooseSurfaceFormat(formats: seq<SurfaceFormat>): (f: SurfaceFormat)
    requires |formats| > 0
    ensures f in formats
    ensures DEFAULT_SURFACE_FORMAT in formats <==> f == DEFAULT_SURFACE_FORMAT
    ensures DEFAULT_SURFACE_FORMAT !in formats ==> f == formats[0]
  {
    if DEFAULT_SURFACE_FORMAT in formats then DEFAULT_SURFACE_FORMAT else formats[0]
  }

  /** What one acquisition reports: a swapchain image index, or one of the two sentinels. */
  function AcquireNextSwapchainImage(acquired: VkResult, index: nat, imageCount: nat): (r: Result<U32>)
    requires imageCount < SWAPCHAIN_IMAGE_TIMEOUT
    requires acquired == Success ==> index < imageCount
    ensures r.Ok? && r.value == SWAPCHAIN_IMAGE_OUT_OF_DATE <==> acquired == SuboptimalKHR || acquired == ErrorOutOfDateKHR
    ensures r.Ok? && r.value == SWAPCHAIN_IMAGE_TIMEOUT <==> acquired == Timeout
    ensures r.Ok? && r.value < imageCount <==> acquired == Success
    ensures r.Err? <==> !(acquired in {Success, SuboptimalKHR, ErrorOutOfDateKHR, Timeout})
  {
    match acquired
    case SuboptimalKHR => Ok(SWAPCHAIN_IMAGE_OUT_OF_DATE)
    case ErrorOutOfDateKHR => Ok(SWAPCHAIN_IMAGE_OUT_OF_DATE)
    case Timeout => Ok(SWAPCHAIN_IMAGE_TIMEOUT)
    case Success => Ok(index)
    case _ => Err("Next swapchain image cannot be acquired.")
  }

  /**
   * The swapchain state of `vulkan_context`. `swapchain` stands for the
   * handle: every creation makes a new one. The surface queries are the
   * arguments of the methods.
   */
  class Context {
    var preferredPresentMode: PresentMode
    var windowSize: Extent2D
    var capabilities: SurfaceCapabilities
    var mode: PresentMode
    var format: SurfaceFormat
    var imageCount: nat
    var compositeAlpha: nat
    var swapchain: nat
    var yCbCrSupported: bool

    constructor (preferred: PresentMode, parameters: WindowParameters, yCbCr: bool)
      ensures preferredPresentMode == preferred && yCbCrSupported == yCbCr
      ensures windowSize == Extent2D(parameters.width, parameters.height)
      ensures swapchain == 0
    {
      preferredPresentMode := preferred;
      windowSize := Extent2D(parameters.width, parameters.height);
      yCbCrSupported := yCbCr;
      swapchain := 0;
      capabilities := SurfaceCapabilities(0, 0, Extent2D(0, 0), Extent2D(0, 0), {});
      mode := preferred;
      format := DEFAULT_SURFACE_FORMAT;
      imageCount := 0;
      compositeAlpha := 0;
    }

    /** `get_window_parameters`: the swapchain's (clamped) window size. */
    function GetWindowParameters(): (p: WindowParameters)
      reads this
      requires IsU32(windowSize.width) && IsU32(windowSize.height)
      ensures p.width == windowSize.width && p.height == windowSize.height
    {
      WindowParameters(windowSize.width, windowSize.height)
    }

    /** `vulkan_context::get_present_mode`, storing the choice in the swapchain attributes. */
    method SelectPresentMode(modes: seq<PresentMode>)
      requires |modes| > 0
      modifies this`mode
      ensures mode == ChoosePresentMode(preferredPresentMode, modes)
    {
      if preferredPresentMode in modes {
        mode := preferredPresentMode;
        return;
      }
      var alternative := if preferredPresentMode == Immediate then Mailbox else Fifo;
      if alternative in modes {
        mode := alternative;
        return;
      }
      mode := modes[0];
    }

    /** `get_surface_format`, storing the choice in the swapchain attributes. */
    method SelectSurfaceFormat(formats: seq<SurfaceFormat>)
      requires |formats| > 0
      modifies this`format
      ensures format == ChooseSurfaceFormat(formats)
    {
      if DEFAULT_SURFACE_FORMAT in formats {
        format := DEFAULT_SURFACE_FORMAT;
        return;
      }
      format := formats[0];
    }

    /** `create_swap_chain`: read the capabilities, choose mode and format, clamp the size, create. */
    method CreateSwapChain(caps: SurfaceCapabilities, modes: seq<PresentMode>, formats: seq<SurfaceFormat>)
      requires CapabilitiesValid(caps) && |modes| > 0 && |formats| > 0
      modifies this
      ensures capabilities == caps
      ensures mode == ChoosePresentMode(preferredPresentMode, modes)
      ensures format == ChooseSurfaceFormat(formats)
      ensures windowSize == ClampExtent(old(windowSize), caps)
      ensures imageCount == ImageCount(caps)
      ensures compositeAlpha in caps.supportedCompositeAlpha
      ensures forall b :: b in caps.supportedCompositeAlpha ==> compositeAlpha <= b
      ensures swapchain == old(swapchain) + 1
      ensures preferredPresentMode == old(preferredPresentMode) && yCbCrSupported == old(yCbCrSupported)
    {
      capabilities := caps;
      SelectPresentMode(modes);
      SelectSurfaceFormat(formats);
      windowSize := Extent2D(
        Clamp(windowSize.width, caps.minImageExtent.width, caps.maxImageExtent.width),
        Clamp(windowSize.height, caps.minImageExtent.height, caps.maxImageExtent.height));
      var count := Max(2, caps.minImageCount);
      if caps.maxImageCount != 0 {
        count := Min(count, caps.maxImageCount);
      }
      imageCount := count;
      compositeAlpha := GetCompositeAlpha(caps.supportedCompositeAlpha);
      swapchain := swapchain + 1;
    }

    /** `recreate_swapchain`: the new window size, clamped, and a new swapchain replacing the old one. */
    method RecreateSwapchain(parameters: WindowParameters, caps: SurfaceCapabilities,
                             modes: seq<PresentMode>, formats: seq<SurfaceFormat>)
      requires CapabilitiesValid(caps) && |modes| > 0 && |formats| > 0
      modifies this
      ensures windowSize == ClampExtent(Extent2D(parameters.width, parameters.height), caps)
      ensures capabilities == caps && imageCount == ImageCount(caps)
      ensures mode == ChoosePresentMode(preferredPresentMode, modes)
      ensures format == ChooseSurfaceFormat(formats)
      ensures swapchain == old(swapchain) + 1
      ensures preferredPresentMode == old(preferredPresentMode) && yCbCrSupported == old(yCbCrSupported)
    {
      windowSize := Extent2D(parameters.width, parameters.height);
      CreateSwapChain(caps, modes, formats);
    }
  }
}
