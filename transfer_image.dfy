/**
 * Transfer images of the newer engine: CPU-writable images that the
 * producer fills and the renderer samples. Covers the padding arithmetic,
 * memory-type selection over a bit mask, the `Image2D` and
 * `TransferImageImpl` bookkeeping (layout and access tracking, recreation,
 * the one-shot preprocess callback) and the `TransferImage` handle.
 * Device calls are inputs: what the device hands back for one creation is
 * an `Allocation`.
 */
module TransferImage {
  import opened Wrappers
  import opened VkTypes

  /** A Vulkan handle; 0 is the null handle. */
  type Handle = nat
  const NULL_HANDLE: Handle := 0

  const NO_ID: U32 := UINT32_MAX

  /** `add_padding`: round `size` up to a multiple of `alignment`. */
  function AddPadding(size: nat, alignment: nat): (r: nat)
    requires alignment > 0
    ensures r % alignment == 0
    ensures size <= r < size + alignment
    ensures size % alignment == 0 ==> r == size
  {
    var remainder := size % alignment;
    if remainder == 0 then size
    else
      var q := size / alignment;
      assert size == alignment * q + remainder;
      MultipleMod(alignment, q + 1);
      assert size + alignment - remainder == alignment * (q + 1);
      size + alignment - remainder
  }

  lemma {:induction false} MultipleMod(a: nat, k: nat)
    requires a > 0
    ensures (a * k) % a == 0
  {
    var x := a * k;
    var q, m := x / a, x % a;
    var d := k - q;
    assert a * d == m by {
      assert a * k == a * q + m;
    }
    if d >= 1 {
      MulAtLeast(a, d);
    }
  }

  lemma MulAtLeast(a: nat, d: int)
    requires a > 0 && d >= 1
    ensures a * d >= a
  {
    assert a * d == a + a * (d - 1);
  }

  /** `flags_present`: `(provided & required) == required`. */
  predicate FlagsPresent(provided: Mask, required: Mask)
  {
    provided * required == required
  }

  /** The required flags are present exactly when they form a subset of the provided ones. */
  lemma FlagsPresentIsSubset(provided: Mask, required: Mask)
    ensures FlagsPresent(provided, required) <==> required <= provided
    ensures FlagsPresent(provided, {})
  {
  }

  /** Memory type `i` may back the image and has the requested properties. */
  predicate Usable(i: nat, typeBits: Mask, types: seq<Mask>, requested: Mask)
    requires i < |types|
  {
    FlagsPresent(types[i], requested) && i in typeBits
  }

  /** No memory type the image may use has the requested properties. */
  predicate NoUsableType(typeBits: Mask, types: seq<Mask>, requested: Mask)
  {
    forall i :: 0 <= i < |types| ==> !Usable(i, typeBits, types, requested)
  }

  /** Memory type `i` is usable and also has the optional properties. */
  predicate Preferred(i: nat, typeBits: Mask, types: seq<Mask>, requested: Mask, optional: Mask)
    requires i < |types|
  {
    Usable(i, typeBits, types, requested) && FlagsPresent(types[i], optional)
  }

  /**
   * `get_memory_type`: the lowest usable type that also has the optional
   * properties; failing that the highest usable type; failing that an error.
   */
  method GetMemoryType(typeBits: Mask, requested: Mask, optional: Mask, types: seq<Mask>)
    returns (r: Result<nat>)
    requires |types| <= 32
    ensures r.Ok? ==> r.value < |types| && Usable(r.value, typeBits, types, requested)
    ensures (exists i :: 0 <= i < |types| && Preferred(i, typeBits, types, requested, optional)) ==>
      r.Ok? && Preferred(r.value, typeBits, types, requested, optional)
      && forall j :: 0 <= j < r.value ==> !Preferred(j, typeBits, types, requested, optional)
    ensures (forall i :: 0 <= i < |types| ==> !Preferred(i, typeBits, types, requested, optional)) && r.Ok? ==>
      forall j :: r.value < j < |types| ==> !Usable(j, typeBits, types, requested)
    ensures r.Err? <==> NoUsableType(typeBits, types, requested)
    ensures r.Err? ==> r.message == "No available memory for transfer images found."
  {
    var possible: int := UINT32_MAX;
    var i := 0;
    while i < |types|
      invariant 0 <= i <= |types|
      invariant forall j :: 0 <= j < i ==> !Preferred(j, typeBits, types, requested, optional)
      invariant possible == UINT32_MAX ==> forall j :: 0 <= j < i ==> !Usable(j, typeBits, types, requested)
      invariant possible != UINT32_MAX ==>
        0 <= possible < i && Usable(possible, typeBits, types, requested)
        && forall j :: possible < j < i ==> !Usable(j, typeBits, types, requested)
    {
      var isTypeUsable := i in typeBits;
      if FlagsPresent(types[i], requested) && isTypeUsable {
        if FlagsPresent(types[i], optional) {
          assert Preferred(i, typeBits, types, requested, optional);
          return Ok(i);
        }
        possible := i;
      }
      i := i + 1;
    }
    if possible != UINT32_MAX {
      return Ok(possible);
    }
    return Err("No available memory for transfer images found.");
  }

  datatype MemoryLocation = DeviceLocal | HostLocal

  /** What the device hands back while one image is created: handles, memory requirements, memory types. */
  datatype Allocation = Allocation(
    image: Handle, byteSize: nat, memoryTypeBits: Mask, memoryTypes: seq<Mask>, memory: Handle)

  predicate AllocationValid(a: Allocation)
  {
    |a.memoryTypes| <= 32 && a.image != NULL_HANDLE
  }

  function TilingFor(location: MemoryLocation): ImageTiling
  {
    if location == HostLocal then TilingLinear else TilingOptimal
  }

  /** The memory properties an image at this location cannot do without. */
  function RequestedFor(location: MemoryLocation): Mask
  {
    if location == HostLocal then {MEMORY_HOST_VISIBLE, MEMORY_HOST_COHERENT} else {}
  }

  function OptionalFor(location: MemoryLocation): Mask
  {
    if location == HostLocal then {MEMORY_HOST_CACHED} else {MEMORY_DEVICE_LOCAL}
  }

  /** No memory type the image may use has the properties its location requires. */
  predicate NoMemoryFor(location: MemoryLocation, alloc: Allocation)
  {
    NoUsableType(alloc.memoryTypeBits, alloc.memoryTypes, RequestedFor(location))
  }

  /** Device-local images require nothing, so any allowed memory type will do. */
  lemma DeviceLocalNeedsAnyType(alloc: Allocation)
    ensures NoMemoryFor(DeviceLocal, alloc) <==>
      forall i :: 0 <= i < |alloc.memoryTypes| ==> i !in alloc.memoryTypeBits
  {
    assert RequestedFor(DeviceLocal) == {};
    forall i | 0 <= i < |alloc.memoryTypes|
      ensures Usable(i, alloc.memoryTypeBits, alloc.memoryTypes, {}) <==> i in alloc.memoryTypeBits
    {
      FlagsPresentIsSubset(alloc.memoryTypes[i], {});
    }
  }

  /** `vk::ImageMemoryBarrier` as the engine fills it in. */
  datatype ImageMemoryBarrier = ImageMemoryBarrier(
    image: Handle, oldLayout: ImageLayout, newLayout: ImageLayout,
    srcAccess: Mask, dstAccess: Mask, srcQueueFamily: nat, dstQueueFamily: nat,
    aspect: ImageAspect, layerCount: nat, levelCount: nat)

  /** One Vulkan image with its memory, as `Image2D` tracks it. */
  class Image2D {
    var memory: Handle
    var image: Handle
    var layout: ImageLayout
    var access: Mask
    var view: Handle
    var byteSize: nat
    var size: Extent2D
    var format: Format
    /** The tiling and memory type the last initialisation asked for. */
    ghost var tiling: ImageTiling
    ghost var memoryType: nat

    constructor ()
      ensures memory == NULL_HANDLE && image == NULL_HANDLE && view == NULL_HANDLE
      ensures size == Extent2D(0, 0) && format == FORMAT_UNDEFINED
    {
      memory, image, view := NULL_HANDLE, NULL_HANDLE, NULL_HANDLE;
      layout := LayoutUndefined;
      access := {};
      byteSize := 0;
      size := Extent2D(0, 0);
      format := FORMAT_UNDEFINED;
      tiling := TilingOptimal;
      memoryType := 0;
    }

    /** `Image2D::get_description`. */
    function GetDescription(): (d: ImageDescription)
      reads this
      ensures d.size == size && d.format == format
    {
      ImageDescription(size, format)
    }

    /**
     * `init` with explicit tiling and memory properties: records the
     * description, access and initial layout, creates the image and binds
     * memory of the selected type. Fails when no memory type fits.
     */
    method InitWith(description: ImageDescription, initialAccess: Mask, preinitialised: bool,
                    imageTiling: ImageTiling, requested: Mask, optional: Mask, alloc: Allocation)
      returns (r: Result<()>)
      requires AllocationValid(alloc)
      modifies this
      ensures GetDescription() == description && access == initialAccess && view == NULL_HANDLE
      ensures layout == (if preinitialised then LayoutPreinitialized else LayoutUndefined)
      ensures tiling == imageTiling && image == alloc.image && byteSize == alloc.byteSize
      ensures r.Ok? ==> (memory == alloc.memory && memoryType < |alloc.memoryTypes|
                         && Usable(memoryType, alloc.memoryTypeBits, alloc.memoryTypes, requested))
      ensures r.Err? <==> NoUsableType(alloc.memoryTypeBits, alloc.memoryTypes, requested)
      ensures r.Err? ==> memory == old(memory) && r.message == "No available memory for transfer images found."
    {
      CreateImage(description, initialAccess, preinitialised, imageTiling, alloc);
      r := AllocateMemory(requested, optional, alloc);
    }

    /** `createImage` with the description, access, initial layout and tiling asked for. */
    method CreateImage(description: ImageDescription, initialAccess: Mask, preinitialised: bool,
                       imageTiling: ImageTiling, alloc: Allocation)
      modifies this`format, this`size, this`access, this`layout, this`view, this`tiling, this`image, this`byteSize
      ensures GetDescription() == description && access == initialAccess && view == NULL_HANDLE
      ensures layout == (if preinitialised then LayoutPreinitialized else LayoutUndefined)
      ensures tiling == imageTiling && image == alloc.image && byteSize == alloc.byteSize
    {
      format, size, access := description.format, description.size, initialAccess;
      layout := if preinitialised then LayoutPreinitialized else LayoutUndefined;
      view, tiling, image, byteSize := NULL_HANDLE, imageTiling, alloc.image, alloc.byteSize;
    }

    /** Selects a memory type for the image and binds the allocated memory to it. */
    method AllocateMemory(requested: Mask, optional: Mask, alloc: Allocation) returns (r: Result<()>)
      requires AllocationValid(alloc)
      modifies this`memory, this`memoryType
      ensures r.Ok? ==> (memory == alloc.memory && memoryType < |alloc.memoryTypes|
                         && Usable(memoryType, alloc.memoryTypeBits, alloc.memoryTypes, requested))
      ensures r.Err? <==> NoUsableType(alloc.memoryTypeBits, alloc.memoryTypes, requested)
      ensures r.Err? ==> memory == old(memory) && r.message == "No available memory for transfer images found."
    {
      var chosen := GetMemoryType(alloc.memoryTypeBits, requested, optional, alloc.memoryTypes);
      if chosen.Err? {
        return Err(chosen.message);
      }
      memoryType, memory := chosen.value, alloc.memory;
      return Ok(());
    }

    /**
     * `init` by memory location: host-local images are linear and need
     * host-visible coherent memory (cached if possible); device-local images
     * are optimal and prefer device-local memory.
     */
    method Init(description: ImageDescription, initialAccess: Mask, preinitialised: bool,
                location: MemoryLocation, alloc: Allocation)
      returns (r: Result<()>)
      requires AllocationValid(alloc)
      modifies this
      ensures GetDescription() == description && access == initialAccess && view == NULL_HANDLE
      ensures layout == (if preinitialised then LayoutPreinitialized else LayoutUndefined)
      ensures tiling == TilingFor(location) && image == alloc.image
      ensures r.Ok? ==> (memory == alloc.memory && memoryType < |alloc.memoryTypes|
                         && Usable(memoryType, alloc.memoryTypeBits, alloc.memoryTypes, RequestedFor(location)))
      ensures r.Err? <==> NoMemoryFor(location, alloc)
      ensures r.Err? ==> r.message == "No available memory for transfer images found."
    {
      var imageTiling, requested, optional;
      if location == HostLocal {
        imageTiling := TilingLinear;
        requested := {MEMORY_HOST_VISIBLE, MEMORY_HOST_COHERENT};
        optional := {MEMORY_HOST_CACHED};
      } else {
        imageTiling := TilingOptimal;
        requested := {};
        optional := {MEMORY_DEVICE_LOCAL};
      }
      r := InitWith(description, initialAccess, preinitialised, imageTiling, requested, optional, alloc);
    }

    /** `create_view`: only an image without a view gets one. */
    method CreateView(newView: Handle)
      requires view == NULL_HANDLE && newView != NULL_HANDLE
      modifies this`view
      ensures view == newView
    {
      view := newView;
    }

    /** `Image2D::destroy`: view and image become null; the memory handle is freed but kept. */
    method Destroy()
      modifies this`view, this`image
      ensures view == NULL_HANDLE && image == NULL_HANDLE
    {
      view := NULL_HANDLE;
      image := NULL_HANDLE;
    }
  }

  /** What mapping the memory and querying the layout yield during `recreate`. */
  datatype Mapping = Mapping(mapped: bool, contents: seq<Byte>, rowPitch: nat)

  /**
   * `TransferImageImpl`: an image with its id, its mapped memory (`ptr`,
   * modelled by the bytes it points to), its row pitch, its fence and the
   * callback to run before rendering. A callback is modelled by what it
   * does to the image's bytes.
   */
  class TransferImageImpl {
    const image2D: Image2D
    var id: U32
    var mapped: bool
    var memoryContents: seq<Byte>
    var rowPitch: nat
    var preprocessFun: Option<seq<Byte> -> seq<Byte>>
    var isAvailableFence: Handle

    /** The default-constructed image: no id yet. */
    constructor ()
      ensures id == NO_ID && !mapped && rowPitch == 0 && preprocessFun.None?
      ensures fresh(image2D)
    {
      image2D := new Image2D();
      id := NO_ID;
      mapped := false;
      memoryContents := [];
      rowPitch := 0;
      preprocessFun := None;
      isAvailableFence := NULL_HANDLE;
    }

    /** `init`: the id and a newly created fence. */
    method Init(newId: U32, fence: Handle)
      modifies this`id, this`isAvailableFence
      ensures id == newId && isAvailableFence == fence
    {
      id := newId;
      isAvailableFence := fence;
    }

    function GetDescription(): (d: ImageDescription)
      reads this, image2D
      ensures d == image2D.GetDescription()
    {
      image2D.GetDescription()
    }

    /**
     * `recreate`: destroy the old image and build a preinitialised host-local
     * one with host-write access for the new description, then map it.
     */
    method Recreate(description: ImageDescription, alloc: Allocation, mapping: Mapping)
      returns (r: Result<()>)
      requires id != NO_ID && AllocationValid(alloc)
      modifies this, image2D
      ensures GetDescription() == description
      ensures image2D.layout == LayoutPreinitialized && image2D.access == {ACCESS_HOST_WRITE}
      ensures image2D.view == NULL_HANDLE && image2D.image == alloc.image
      ensures image2D.tiling == TilingLinear
      ensures r.Err? <==> NoMemoryFor(HostLocal, alloc) || !mapping.mapped
      ensures NoMemoryFor(HostLocal, alloc) ==> r.message == "No available memory for transfer images found."
      ensures !NoMemoryFor(HostLocal, alloc) && !mapping.mapped ==> r.message == "Image memory cannot be mapped."
      ensures r.Ok? ==> mapped && memoryContents == mapping.contents && rowPitch == mapping.rowPitch
      ensures id == old(id) && preprocessFun == old(preprocessFun)
    {
      image2D.Destroy();
      var created := image2D.Init(description, {ACCESS_HOST_WRITE}, true, HostLocal, alloc);
      if created.Err? {
        return Err(created.message);
      }
      if !mapping.mapped {
        return Err("Image memory cannot be mapped.");
      }
      mapped := true;
      memoryContents := mapping.contents;
      rowPitch := mapping.rowPitch;
      return Ok(());
    }

    /**
     * `create_memory_barrier`: the barrier goes from the recorded layout and
     * access to the requested ones, which become the recorded ones.
     */
    method CreateMemoryBarrier(newLayout: ImageLayout, newAccess: Mask, srcQueueFamily: nat, dstQueueFamily: nat)
      returns (barrier: ImageMemoryBarrier)
      modifies image2D`layout, image2D`access
      ensures barrier.image == image2D.image
      ensures barrier.oldLayout == old(image2D.layout) && barrier.srcAccess == old(image2D.access)
      ensures barrier.newLayout == newLayout && barrier.dstAccess == newAccess
      ensures barrier.srcQueueFamily == srcQueueFamily && barrier.dstQueueFamily == dstQueueFamily
      ensures barrier.aspect == AspectColor && barrier.layerCount == 1 && barrier.levelCount == 1
      ensures image2D.layout == newLayout && image2D.access == newAccess
    {
      barrier := ImageMemoryBarrier(image2D.image, image2D.layout, newLayout, image2D.access, newAccess,
                                    srcQueueFamily, dstQueueFamily, AspectColor, 1, 1);
      image2D.layout := newLayout;
      image2D.access := newAccess;
    }

    /** Successive barriers chain: the second starts where the first ended. */
    method RenderBarriers(first: ImageLayout, firstAccess: Mask, second: ImageLayout, secondAccess: Mask, ignored: nat)
      returns (b1: ImageMemoryBarrier, b2: ImageMemoryBarrier)
      modifies image2D`layout, image2D`access
      ensures b1.oldLayout == old(image2D.layout) && b1.srcAccess == old(image2D.access)
      ensures b2.oldLayout == b1.newLayout == first && b2.srcAccess == b1.dstAccess == firstAccess
      ensures image2D.layout == second && image2D.access == secondAccess
    {
      b1 := CreateMemoryBarrier(first, firstAccess, ignored, ignored);
      b2 := CreateMemoryBarrier(second, secondAccess, ignored, ignored);
    }

    /** `preprocess`: run the callback, if one is set, on the image and then clear it. */
    method Preprocess()
      modifies this`memoryContents, this`preprocessFun
      ensures preprocessFun.None?
      ensures old(preprocessFun).Some? ==> memoryContents == old(preprocessFun).value(old(memoryContents))
      ensures old(preprocessFun).None? ==> memoryContents == old(memoryContents)
    {
      if preprocessFun.Some? {
        memoryContents := preprocessFun.value(memoryContents);
        preprocessFun := None;
      }
    }

    /** A second `preprocess` before a new callback is set changes nothing. */
    method PreprocessTwice()
      modifies this`memoryContents, this`preprocessFun
      ensures preprocessFun.None?
      ensures old(preprocessFun).Some? ==> memoryContents == old(preprocessFun).value(old(memoryContents))
      ensures old(preprocessFun).None? ==> memoryContents == old(memoryContents)
    {
      Preprocess();
      Preprocess();
    }

    /** `destroy`: unmap, destroy the image and the fence. */
    method Destroy()
      modifies this`mapped, this`isAvailableFence, image2D`view, image2D`image
      ensures !mapped && isAvailableFence == NULL_HANDLE
      ensures image2D.view == NULL_HANDLE && image2D.image == NULL_HANDLE
    {
      mapped := false;
      image2D.Destroy();
      isAvailableFence := NULL_HANDLE;
    }
  }

  /** `TransferImage`: a possibly null pointer to an impl, handed to the producer. */
  datatype TransferImageHandle = TransferImageHandle(impl: TransferImageImpl?)

  /** The explicit constructor asserts that the impl has an id. */
  function MakeHandle(impl: TransferImageImpl): (h: TransferImageHandle)
    reads impl
    requires impl.id != NO_ID
    ensures h.impl == impl
  {
    TransferImageHandle(impl)
  }

  /** `operator==`: two handles are equal when they point at the same impl. */
  predicate SameImage(a: TransferImageHandle, b: TransferImageHandle)
  {
    a.impl == b.impl
  }

  function GetId(h: TransferImageHandle): (id: U32)
    reads h.impl
    requires h.impl != null
    ensures id == h.impl.id
  {
    h.impl.id
  }

  function GetMemory(h: TransferImageHandle): (contents: seq<Byte>)
    reads h.impl
    requires h.impl != null
    ensures contents == h.impl.memoryContents
  {
    h.impl.memoryContents
  }

  function GetRowPitch(h: TransferImageHandle): (pitch: nat)
    reads h.impl
    requires h.impl != null
    ensures pitch == h.impl.rowPitch
  {
    h.impl.rowPitch
  }

  function GetHandleDescription(h: TransferImageHandle): (d: ImageDescription)
    reads h.impl, h.impl.image2D
    requires h.impl != null
    ensures d == h.impl.image2D.GetDescription()
  {
    h.impl.image2D.GetDescription()
  }

  function GetSize(h: TransferImageHandle): (size: Extent2D)
    reads h.impl, h.impl.image2D
    requires h.impl != null
    ensures size == h.impl.image2D.size
  {
    h.impl.image2D.size
  }

  /** `set_process_function`: the callback is stored on the impl the handle points at. */
  method SetProcessFunction(h: TransferImageHandle, f: Option<seq<Byte> -> seq<Byte>>)
    requires h.impl != null
    modifies h.impl`preprocessFun
    ensures h.impl.preprocessFun == f
  {
    h.impl.preprocessFun := f;
  }

  /** `is_image_description_supported`: the format query decides, then the maximum extent. */
  function IsImageDescriptionSupported(query: VkResult, maxExtent: Extent2D, d: ImageDescription): (r: Result<bool>)
    ensures r.Err? <==> query != Success && query != ErrorFormatNotSupported
    ensures r.Err? ==> r.message == "Error queriing image properties."
    ensures r.Ok? ==> (r.value <==> query == Success && d.size.width <= maxExtent.width && d.size.height <= maxExtent.height)
  {
    match query
    case Success => Ok(d.size.height <= maxExtent.height && d.size.width <= maxExtent.width)
    case ErrorFormatNotSupported => Ok(false)
    case _ => Err("Error queriing image properties.")
  }
}
