/**
 * The newer presentation engine, `VulkanDisplay` of `vulkan/vulkan_display.cpp`.
 *
 * Transfer images are named by their ids (their index in `transfer_images`)
 * and described by the description each one currently has; per-frame
 * resources (command buffer, semaphores, converted image, descriptor sets)
 * are named by their index in `frame_resources`. The queues and lists
 * that pass images between the provider thread and the render thread are
 * sequences of ids. Every answer the GPU, the swapchain or the window gives
 * is an argument: fence states, acquire results, window sizes, the surface
 * queries and the present result.
 *
 * The bookkeeping invariant: every transfer image is in exactly one place
 * (the provider's local list, the available queue, the filled queue, the
 * rendered queue, the provider's hands, or lost), and so is every frame
 * slot (the free list, the rendered queue, or lost).
 */
module Display {
  import opened Wrappers
  import opened VkTypes
  import opened RenderArea
  import opened VulkanContext
  import TransferImage

  /** `VK_API_VERSION_1_0`, i.e. `VK_MAKE_API_VERSION(0, 1, 0, 0)`. */
  const VK_API_VERSION_1_0: nat := 0x40_0000
  /** `VK_API_VERSION_1_1`. */
  const VK_API_VERSION_1_1: nat := 0x40_1000

  const YCBCR_UNSUPPORTED: string := "YCbCr formats are not supported."
  const VULKAN_1_1_NEEDED: string := "\nVulkan 1.1 or higher is needed for YCbCr support."
  const FENCE_WAIT_FAILED: string := "Waiting for fence failed."
  const CANNOT_ACQUIRE: string := "Cannot acquire swapchain image"
  const PRESENT_FAILED: string := "Error presenting image:"
  /** The prefix of the `vk::SystemError` that `vk::Queue::submit` throws when the submission fails. */
  const SUBMIT_FAILED: string := "vk::Queue::submit"

  /** How many times a frame may recreate the swapchain before giving up. */
  const MAX_SWAPCHAIN_RECREATIONS: nat := 3

  /** The description of a transfer image that has not been created yet. */
  const NEW_IMAGE_DESCRIPTION: ImageDescription := ImageDescription(Extent2D(0, 0), FORMAT_UNDEFINED)

  /**
   * `get_present_mode`: vsync selects the FIFO modes, permitted tearing the
   * modes that may tear; each combination has its own mode.
   */
  function GetPresentMode(vsync: bool, tearingPermitted: bool): (m: PresentMode)
    ensures (m == Fifo || m == FifoRelaxed) <==> vsync
    ensures (m == FifoRelaxed || m == Immediate) <==> tearingPermitted
  {
    if vsync then (if tearingPermitted then FifoRelaxed else Fifo)
    else (if tearingPermitted then Immediate else Mailbox)
  }

  // ---------------------------------------------------------------------
  // Descriptor pool
  // ---------------------------------------------------------------------

  /** Descriptor sets and descriptors, by type: a pool's capacity or what has been allocated from it. */
  datatype Descriptors = Descriptors(sets: nat, combinedImageSamplers: nat, storageImages: nat)

  const NO_DESCRIPTORS: Descriptors := Descriptors(0, 0, 0)

  /** `create_descriptor_pool(device, descriptor_count)`. */
  function CreateDescriptorPool(descriptorCount: nat): Descriptors
  {
    Descriptors(3 * descriptorCount, 2 * descriptorCount, descriptorCount)
  }

  predicate FitsIn(used: Descriptors, pool: Descriptors)
  {
    used.sets <= pool.sets && used.combinedImageSamplers <= pool.combinedImageSamplers
    && used.storageImages <= pool.storageImages
  }

  /** The one descriptor each set of a layout holds. */
  datatype SetLayout = SampledImageLayout | StorageImageLayout

  /** `allocate_description_sets(device, pool, layout, count)`: `count` more sets of `layout`. */
  function AllocateSets(used: Descriptors, layout: SetLayout, count: nat): (r: Descriptors)
    ensures r.sets == used.sets + count
    ensures r.combinedImageSamplers + r.storageImages == used.combinedImageSamplers + used.storageImages + count
  {
    match layout
    case SampledImageLayout => used.(sets := used.sets + count, combinedImageSamplers := used.combinedImageSamplers + count)
    case StorageImageLayout => used.(sets := used.sets + count, storageImages := used.storageImages + count)
  }

  /**
   * What `reconfigure` allocates after resetting the pool: one render set
   * per frame (a sampled image); with format conversion also one source set
   * (a sampled image) and one destination set (a storage image) per frame.
   * It always fits the pool, which conversion uses up exactly.
   */
  function AllocatedSets(frames: nat, conversion: bool): (d: Descriptors)
    ensures FitsIn(d, CreateDescriptorPool(frames))
    ensures conversion ==> d == CreateDescriptorPool(frames)
    ensures !conversion ==> d.sets == frames && d.storageImages == 0
  {
    var render := AllocateSets(NO_DESCRIPTORS, SampledImageLayout, frames);
    if conversion then AllocateSets(AllocateSets(render, SampledImageLayout, frames), StorageImageLayout, frames)
    else render
  }

  /** The per-frame converted images of an `R8G8B8A8Unorm` stream of the given size. */
  function ConvertedImages(frames: nat, size: Extent2D): (r: seq<ImageDescription>)
    ensures |r| == frames
    ensures forall i :: 0 <= i < frames ==> r[i] == ImageDescription(size, FORMAT_R8G8B8A8_UNORM)
  {
    seq(frames, _ => ImageDescription(size, FORMAT_R8G8B8A8_UNORM))
  }

  // ---------------------------------------------------------------------
  // Sequences of ids
  // ---------------------------------------------------------------------

  function Range(n: nat): (r: seq<nat>)
    ensures |r| == n
  {
    seq(n, i => i)
  }

  lemma RangeGrows(n: nat)
    ensures multiset(Range(n + 1)) == multiset(Range(n)) + multiset{n}
  {
    assert Range(n + 1) == Range(n) + [n];
  }

  lemma {:induction false} RangeMembers(n: nat, x: nat)
    ensures x in multiset(Range(n)) <==> x < n
    ensures multiset(Range(n))[x] == (if x < n then 1 else 0)
  {
    if n > 0 {
      RangeMembers(n - 1, x);
      RangeGrows(n - 1);
    }
  }

  /** The image a possibly null pointer points to, if any. */
  function NonNull(p: Option<nat>): (r: seq<nat>)
    ensures |r| <= 1 && (r == [] <==> p.None?)
  {
    if p.Some? then [p.value] else []
  }

  /** The ids in a queue of possibly null image pointers, front first. */
  function FilledIds(q: seq<Option<nat>>): (r: seq<nat>)
    ensures |r| <= |q|
  {
    if q == [] then [] else NonNull(q[0]) + FilledIds(q[1..])
  }

  lemma {:induction false} FilledIdsAppend(q: seq<Option<nat>>, x: Option<nat>)
    ensures FilledIds(q + [x]) == FilledIds(q) + NonNull(x)
  {
    if q != [] {
      assert (q + [x])[1..] == q[1..] + [x];
      FilledIdsAppend(q[1..], x);
    } else {
      assert q + [x] == [x];
    }
  }

  datatype RenderedImage = RenderedImage(image: nat, slot: nat)

  function Images(r: seq<RenderedImage>): (ids: seq<nat>)
    ensures |ids| == |r| && forall i :: 0 <= i < |r| ==> ids[i] == r[i].image
  {
    seq(|r|, i requires 0 <= i < |r| => r[i].image)
  }

  function Slots(r: seq<RenderedImage>): (ids: seq<nat>)
    ensures |ids| == |r| && forall i :: 0 <= i < |r| ==> ids[i] == r[i].slot
  {
    seq(|r|, i requires 0 <= i < |r| => r[i].slot)
  }

  lemma RenderedAppend(r: seq<RenderedImage>, x: RenderedImage)
    ensures Images(r + [x]) == Images(r) + [x.image]
    ensures Slots(r + [x]) == Slots(r) + [x.slot]
  {
    assert Images(r + [x]) == Images(r) + [x.image];
    assert Slots(r + [x]) == Slots(r) + [x.slot];
  }

  lemma RenderedSplit(r: seq<RenderedImage>, k: nat)
    requires k < |r|
    ensures Images(r[..k + 1]) == Images(r[..k]) + [r[k].image]
    ensures Slots(r[..k + 1]) == Slots(r[..k]) + [r[k].slot]
    ensures multiset(Images(r[k..])) == multiset{r[k].image} + multiset(Images(r[k + 1..]))
    ensures multiset(Slots(r[k..])) == multiset{r[k].slot} + multiset(Slots(r[k + 1..]))
  {
    assert r[..k + 1] == r[..k] + [r[k]];
    RenderedAppend(r[..k], r[k]);
    assert Images(r[k..]) == [r[k].image] + Images(r[k + 1..]);
    assert Slots(r[k..]) == [r[k].slot] + Slots(r[k + 1..]);
  }

  function Last(s: seq<nat>): nat
    requires s != []
  {
    s[|s| - 1]
  }

  function DropLast(s: seq<nat>): seq<nat>
    requires s != []
  {
    s[..|s| - 1]
  }

  lemma LastSplit(s: seq<nat>)
    requires s != []
    ensures s == DropLast(s) + [Last(s)]
    ensures multiset(s) == multiset(DropLast(s)) + multiset{Last(s)}
  {
    assert s == DropLast(s) + [Last(s)];
  }

  // ---------------------------------------------------------------------
  // Answers of the environment
  // ---------------------------------------------------------------------

  /** What the surface reports when the swapchain is recreated. */
  datatype Surface = Surface(caps: SurfaceCapabilities, modes: seq<PresentMode>, formats: seq<SurfaceFormat>)

  /** The render area is the one computed for the window of some retry of the acquisition. */
  ghost predicate ForSomeRetry(targets: Option<RenderTargets>, windows: seq<WindowParameters>, image: Extent2D)
  {
    exists j :: 0 <= j < |windows| && targets == UpdateRenderArea(Extent2D(windows[j].width, windows[j].height), image)
  }

  predicate SurfaceValid(s: Surface)
  {
    CapabilitiesValid(s.caps) && |s.modes| > 0 && |s.formats| > 0
  }

  /**
   * Everything `display_queued_image` learns from outside: the window size
   * it reads first, the state of the fence of each rendered image (oldest
   * first), the successive results of `acquire_next_swapchain_image`, the
   * window size read on each retry, the surface, the result of the queue
   * submission and the present result.
   */
  datatype RenderEnv = RenderEnv(
    window: WindowParameters,
    fences: seq<VkResult>,
    acquires: seq<Result<U32>>,
    retryWindows: seq<WindowParameters>,
    surface: Surface,
    submit: VkResult,
    present: VkResult)

  /** How many rendered images, oldest first, have signalled fences. */
  function LeadingSuccesses(fences: seq<VkResult>): (k: nat)
    ensures k <= |fences|
    ensures forall i :: 0 <= i < k ==> fences[i] == Success
    ensures k < |fences| ==> fences[k] != Success
  {
    if fences == [] || fences[0] != Success then 0 else 1 + LeadingSuccesses(fences[1..])
  }

  /** The reclaim loop stops at a timeout and fails on any other unsignalled fence. */
  predicate FenceWaitFails(fences: seq<VkResult>)
  {
    LeadingSuccesses(fences) < |fences| && fences[LeadingSuccesses(fences)] != Timeout
  }

  predicate IsSentinel(index: U32)
  {
    index == SWAPCHAIN_IMAGE_OUT_OF_DATE || index == SWAPCHAIN_IMAGE_TIMEOUT
  }

  datatype Acquisition = Acquired(index: U32) | MinimizedWhileRetrying | AcquireFailed(message: string)

  /**
   * The swapchain acquisition of a frame as a reference definition:
   * attempt `attempt` looks at the `attempt`-th acquire result; an
   * out-of-date or timed-out image leads to a recreation unless three have
   * been made already or the window has been minimized meanwhile.
   */
  function AcquireOutcome(acquires: seq<Result<U32>>, windows: seq<WindowParameters>, attempt: nat): Acquisition
    requires |acquires| == MAX_SWAPCHAIN_RECREATIONS + 1 && |windows| == MAX_SWAPCHAIN_RECREATIONS
    requires attempt <= MAX_SWAPCHAIN_RECREATIONS
    decreases MAX_SWAPCHAIN_RECREATIONS - attempt
  {
    match acquires[attempt]
    case Err(m) => AcquireFailed(m)
    case Ok(i) =>
      if !IsSentinel(i) then Acquired(i)
      else if attempt == MAX_SWAPCHAIN_RECREATIONS then AcquireFailed(CANNOT_ACQUIRE)
      else if IsMinimizedAsWritten(windows[attempt]) then MinimizedWhileRetrying
      else AcquireOutcome(acquires, windows, attempt + 1)
  }

  /**
   * A frame never uses an out-of-date or timed-out index, and it gives up
   * with "Cannot acquire swapchain image" only after every one of its four
   * acquisitions came back out of date or timed out.
   */
  lemma {:induction false} AcquireOutcomeSound(acquires: seq<Result<U32>>, windows: seq<WindowParameters>, attempt: nat)
    requires |acquires| == MAX_SWAPCHAIN_RECREATIONS + 1 && |windows| == MAX_SWAPCHAIN_RECREATIONS
    requires attempt <= MAX_SWAPCHAIN_RECREATIONS
    decreases MAX_SWAPCHAIN_RECREATIONS - attempt
    ensures var o := AcquireOutcome(acquires, windows, attempt);
      && (o.Acquired? ==> !IsSentinel(o.index) && exists j :: attempt <= j < |acquires| && acquires[j] == Ok(o.index))
      && (o == AcquireFailed(CANNOT_ACQUIRE) && (forall j :: attempt <= j < |acquires| ==> acquires[j] != Err(CANNOT_ACQUIRE)) ==>
            forall j :: attempt <= j < |acquires| ==> acquires[j].Ok? && IsSentinel(acquires[j].value))
      && (o == MinimizedWhileRetrying ==> exists j :: attempt <= j < |windows| && IsMinimizedAsWritten(windows[j]))
  {
    if attempt < MAX_SWAPCHAIN_RECREATIONS && acquires[attempt].Ok? && IsSentinel(acquires[attempt].value)
       && !IsMinimizedAsWritten(windows[attempt]) {
      AcquireOutcomeSound(acquires, windows, attempt + 1);
    }
  }

  /** The message of a failed `acquire_image` for a Y'CbCr format the device cannot sample. */
  function YCbCrMessage(vulkanVersion: nat): (m: string)
    ensures YCBCR_UNSUPPORTED <= m
    ensures vulkanVersion == VK_API_VERSION_1_0 <==> |m| > |YCBCR_UNSUPPORTED|
  {
    if vulkanVersion == VK_API_VERSION_1_0 then YCBCR_UNSUPPORTED + VULKAN_1_1_NEEDED else YCBCR_UNSUPPORTED
  }

  predicate PresentTolerated(r: VkResult)
  {
    r == Success || r == ErrorOutOfDateKHR || r == SuboptimalKHR
  }

  /**
   * With a swapchain image acquired, the frame reaches the screen when the
   * queue submission succeeds and the present result is tolerated; a failed
   * submission stops the call before the present.
   */
  predicate FrameShown(submit: VkResult, present: VkResult)
  {
    submit == Success && PresentTolerated(present)
  }


  // ---------------------------------------------------------------------
  // Where the images and the frame slots are
  // ---------------------------------------------------------------------

  /** The ids in several places, added up. */
  ghost function Total(places: seq<multiset<nat>>): multiset<nat>
  {
    if places == [] then multiset{} else places[0] + Total(places[1..])
  }

  /**
   * The queues and lists that hand transfer images and per-frame resources
   * between the provider thread and the render thread, and the places that
   * only the model names: what each thread has taken and not yet put
   * anywhere, and what nothing refers to any more.
   */
  datatype Queues = Queues(
    /** `available_images`, local to the provider thread; its back is the last element. */
    availableImages: seq<nat>,
    /** `available_img_queue`: images the render thread hands back. */
    availableQueue: seq<nat>,
    /** `filled_img_queue`: images waiting to be shown; `None` is a null pointer. */
    filledQueue: seq<Option<nat>>,
    /** `rendered_images`: submitted frames whose fence has not been seen signalled. */
    renderedImages: seq<RenderedImage>,
    /** `free_frame_resources`: per-frame slots; its back is the last element. */
    freeFrameResources: seq<nat>,
    /** Images the provider has acquired and not yet queued or discarded. */
    providerImages: multiset<nat>,
    /** The image and the slot of the frame the render thread is preparing. */
    renderImages: multiset<nat>,
    renderSlots: multiset<nat>,
    /** Images and slots that nothing refers to any more. */
    lostImages: multiset<nat>,
    lostSlots: multiset<nat>)

  ghost function ImagePlaces(q: Queues): (p: seq<multiset<nat>>)
    ensures |p| == 7
  {
    [multiset(q.availableImages), multiset(q.availableQueue), multiset(FilledIds(q.filledQueue)),
     multiset(Images(q.renderedImages)), q.providerImages, q.renderImages, q.lostImages]
  }

  ghost function SlotPlaces(q: Queues): (p: seq<multiset<nat>>)
    ensures |p| == 4
  {
    [multiset(q.freeFrameResources), multiset(Slots(q.renderedImages)), q.renderSlots, q.lostSlots]
  }

  /** Image ids `0..imageCount-1` and slots `0..frameCount-1`, each in exactly one place. */
  ghost predicate Accounted(q: Queues, imageCount: nat, frameCount: nat)
  {
    ImagesAccounted(q, imageCount) && SlotsAccounted(q, frameCount)
  }

  ghost predicate ImagesAccounted(q: Queues, imageCount: nat)
  {
    Total(ImagePlaces(q)) == multiset(Range(imageCount))
  }

  ghost predicate SlotsAccounted(q: Queues, frameCount: nat)
  {
    Total(SlotPlaces(q)) == multiset(Range(frameCount))
  }

  /** The places of the images, added up. */
  lemma ImagesTotal(q: Queues)
    ensures Total(ImagePlaces(q)) == multiset(q.availableImages) + multiset(q.availableQueue)
      + multiset(FilledIds(q.filledQueue)) + multiset(Images(q.renderedImages))
      + q.providerImages + q.renderImages + q.lostImages
  {
    var p := ImagePlaces(q);
    var none: seq<multiset<nat>> := [];
    assert p[7..] == none;
    assert Total(p[6..]) == p[6] + Total(p[7..]);
    assert Total(p[5..]) == p[5] + Total(p[6..]);
    assert Total(p[4..]) == p[4] + Total(p[5..]);
    assert Total(p[3..]) == p[3] + Total(p[4..]);
    assert Total(p[2..]) == p[2] + Total(p[3..]);
    assert Total(p[1..]) == p[1] + Total(p[2..]);
  }

  /** The places of the slots, added up. */
  lemma SlotsTotal(q: Queues)
    ensures Total(SlotPlaces(q)) == multiset(q.freeFrameResources) + multiset(Slots(q.renderedImages))
      + q.renderSlots + q.lostSlots
  {
    var p := SlotPlaces(q);
    var none: seq<multiset<nat>> := [];
    assert p[4..] == none;
    assert Total(p[3..]) == p[3] + Total(p[4..]);
    assert Total(p[2..]) == p[2] + Total(p[3..]);
    assert Total(p[1..]) == p[1] + Total(p[2..]);
  }

  /** Both totals of two states, spelled out. */
  lemma Totals(q: Queues, q': Queues)
    ensures Total(ImagePlaces(q)) == multiset(q.availableImages) + multiset(q.availableQueue)
      + multiset(FilledIds(q.filledQueue)) + multiset(Images(q.renderedImages))
      + q.providerImages + q.renderImages + q.lostImages
    ensures Total(ImagePlaces(q')) == multiset(q'.availableImages) + multiset(q'.availableQueue)
      + multiset(FilledIds(q'.filledQueue)) + multiset(Images(q'.renderedImages))
      + q'.providerImages + q'.renderImages + q'.lostImages
    ensures Total(SlotPlaces(q)) == multiset(q.freeFrameResources) + multiset(Slots(q.renderedImages))
      + q.renderSlots + q.lostSlots
    ensures Total(SlotPlaces(q')) == multiset(q'.freeFrameResources) + multiset(Slots(q'.renderedImages))
      + q'.renderSlots + q'.lostSlots
  {
    ImagesTotal(q);
    ImagesTotal(q');
    SlotsTotal(q);
    SlotsTotal(q');
  }

  /** `init`: images `0..n-1` in the provider's list and every slot free. */
  function InitialQueues(n: nat, f: nat): (q: Queues)
    ensures Accounted(q, n, f)
  {
    var q := Queues(Range(n), [], [], [], Range(f), multiset{}, multiset{}, multiset{}, multiset{}, multiset{});
    Totals(q, q);
    q
  }

  // Provider-side moves

  lemma TakeFromList(q: Queues, n: nat, f: nat)
    requires q.availableImages != [] && Accounted(q, n, f)
    ensures Accounted(q.(availableImages := DropLast(q.availableImages),
                         providerImages := q.providerImages + multiset{Last(q.availableImages)}), n, f)
    ensures Last(q.availableImages) < n
  {
    var x := Last(q.availableImages);
    LastSplit(q.availableImages);
    Totals(q, q.(availableImages := DropLast(q.availableImages), providerImages := q.providerImages + multiset{x}));
    RangeMembers(n, x);
  }

  lemma TakeFromQueue(q: Queues, n: nat, f: nat)
    requires q.availableQueue != [] && Accounted(q, n, f)
    ensures Accounted(q.(availableQueue := q.availableQueue[1..],
                         providerImages := q.providerImages + multiset{q.availableQueue[0]}), n, f)
    ensures q.availableQueue[0] < n
  {
    var x := q.availableQueue[0];
    assert q.availableQueue == [x] + q.availableQueue[1..];
    Totals(q, q.(availableQueue := q.availableQueue[1..], providerImages := q.providerImages + multiset{x}));
    RangeMembers(n, x);
  }

  lemma TakeNew(q: Queues, n: nat, f: nat)
    requires Accounted(q, n, f)
    ensures Accounted(q.(providerImages := q.providerImages + multiset{n}), n + 1, f)
  {
    Totals(q, q.(providerImages := q.providerImages + multiset{n}));
    RangeGrows(n);
  }

  lemma ProviderLoses(q: Queues, x: nat, n: nat, f: nat)
    requires x in q.providerImages && Accounted(q, n, f)
    ensures Accounted(q.(providerImages := q.providerImages - multiset{x}, lostImages := q.lostImages + multiset{x}), n, f)
  {
    Totals(q, q.(providerImages := q.providerImages - multiset{x}, lostImages := q.lostImages + multiset{x}));
  }

  lemma ProviderQueues(q: Queues, x: nat, n: nat, f: nat)
    requires x in q.providerImages && Accounted(q, n, f)
    ensures Accounted(q.(filledQueue := q.filledQueue + [Some(x)], providerImages := q.providerImages - multiset{x}), n, f)
  {
    FilledIdsAppend(q.filledQueue, Some(x));
    Totals(q, q.(filledQueue := q.filledQueue + [Some(x)], providerImages := q.providerImages - multiset{x}));
  }

  lemma ProviderReturns(q: Queues, x: nat, n: nat, f: nat)
    requires x in q.providerImages && Accounted(q, n, f)
    ensures Accounted(q.(availableImages := q.availableImages + [x], providerImages := q.providerImages - multiset{x}), n, f)
  {
    Totals(q, q.(availableImages := q.availableImages + [x], providerImages := q.providerImages - multiset{x}));
  }

  // Render-side moves

  /** `discard_filled_image`: the front of the filled queue, if any, goes back through the available queue. */
  function DiscardFront(q: Queues): (r: Queues)
  {
    if q.filledQueue == [] then q
    else q.(filledQueue := q.filledQueue[1..], availableQueue := q.availableQueue + NonNull(q.filledQueue[0]))
  }

  lemma DiscardFrontAccounted(q: Queues, n: nat, f: nat)
    requires Accounted(q, n, f)
    ensures Accounted(DiscardFront(q), n, f)
    ensures |DiscardFront(q).filledQueue| <= |q.filledQueue|
  {
    if q.filledQueue != [] {
      var front := q.filledQueue[0];
      assert FilledIds(q.filledQueue) == NonNull(front) + FilledIds(q.filledQueue[1..]);
      Totals(q, DiscardFront(q));
    }
  }

  /** The render thread takes the front of the filled queue (a null pointer leaves it empty-handed). */
  lemma TakeFilled(q: Queues, n: nat, f: nat)
    requires q.filledQueue != [] && Accounted(q, n, f)
    ensures Accounted(q.(filledQueue := q.filledQueue[1..], renderImages := q.renderImages + multiset(NonNull(q.filledQueue[0]))), n, f)
  {
    var front := q.filledQueue[0];
    assert FilledIds(q.filledQueue) == NonNull(front) + FilledIds(q.filledQueue[1..]);
    Totals(q, q.(filledQueue := q.filledQueue[1..], renderImages := q.renderImages + multiset(NonNull(front))));
  }

  /** The render thread takes the slot at the back of the free list. */
  lemma TakeSlot(q: Queues, n: nat, f: nat)
    requires q.freeFrameResources != [] && Accounted(q, n, f)
    ensures Accounted(q.(freeFrameResources := DropLast(q.freeFrameResources),
                         renderSlots := q.renderSlots + multiset{Last(q.freeFrameResources)}), n, f)
  {
    LastSplit(q.freeFrameResources);
    Totals(q, q.(freeFrameResources := DropLast(q.freeFrameResources),
                 renderSlots := q.renderSlots + multiset{Last(q.freeFrameResources)}));
  }

  /** A rendered image whose fence is signalled: its slot is free again and the image goes back to the provider. */
  lemma RenderedFront(r: seq<RenderedImage>)
    requires r != []
    ensures multiset(Images(r)) == multiset{r[0].image} + multiset(Images(r[1..]))
    ensures multiset(Slots(r)) == multiset{r[0].slot} + multiset(Slots(r[1..]))
  {
    RenderedSplit(r, 0);
    assert r[0..] == r;
  }

  lemma ReclaimFront(q: Queues, n: nat, f: nat)
    requires q.renderedImages != [] && Accounted(q, n, f)
    ensures Accounted(q.(renderedImages := q.renderedImages[1..],
                         freeFrameResources := q.freeFrameResources + [q.renderedImages[0].slot],
                         availableQueue := q.availableQueue + [q.renderedImages[0].image]), n, f)
  {
    var front := q.renderedImages[0];
    var q' := q.(renderedImages := q.renderedImages[1..], freeFrameResources := q.freeFrameResources + [front.slot],
                 availableQueue := q.availableQueue + [front.image]);
    ReclaimImage(q, q', n);
    ReclaimSlot(q, q', f);
  }

  lemma ReclaimImage(q: Queues, q': Queues, n: nat)
    requires q.renderedImages != [] && ImagesAccounted(q, n)
    requires q' == q.(renderedImages := q.renderedImages[1..], freeFrameResources := q'.freeFrameResources,
                      availableQueue := q.availableQueue + [q.renderedImages[0].image])
    ensures ImagesAccounted(q', n)
  {
    RenderedFront(q.renderedImages);
    ImagesTotal(q);
    ImagesTotal(q');
  }

  lemma ReclaimSlot(q: Queues, q': Queues, f: nat)
    requires q.renderedImages != [] && SlotsAccounted(q, f)
    requires q' == q.(renderedImages := q.renderedImages[1..], availableQueue := q'.availableQueue,
                      freeFrameResources := q.freeFrameResources + [q.renderedImages[0].slot])
    ensures SlotsAccounted(q', f)
  {
    RenderedFront(q.renderedImages);
    SlotsTotal(q);
    SlotsTotal(q');
  }

  /** The frame in preparation is submitted: image and slot go to the rendered queue together. */
  lemma Submit(q: Queues, x: nat, s: nat, n: nat, f: nat)
    requires x in q.renderImages && s in q.renderSlots && Accounted(q, n, f)
    ensures Accounted(q.(renderedImages := q.renderedImages + [RenderedImage(x, s)],
                         renderImages := q.renderImages - multiset{x}, renderSlots := q.renderSlots - multiset{s}), n, f)
  {
    var q' := q.(renderedImages := q.renderedImages + [RenderedImage(x, s)],
                 renderImages := q.renderImages - multiset{x}, renderSlots := q.renderSlots - multiset{s});
    SubmitImage(q, q', x, s, n);
    SubmitSlot(q, q', x, s, f);
  }

  lemma SubmitImage(q: Queues, q': Queues, x: nat, s: nat, n: nat)
    requires x in q.renderImages && ImagesAccounted(q, n)
    requires q' == q.(renderedImages := q.renderedImages + [RenderedImage(x, s)],
                      renderImages := q.renderImages - multiset{x}, renderSlots := q'.renderSlots)
    ensures ImagesAccounted(q', n)
  {
    RenderedAppend(q.renderedImages, RenderedImage(x, s));
    ImagesTotal(q);
    ImagesTotal(q');
  }

  lemma SubmitSlot(q: Queues, q': Queues, x: nat, s: nat, f: nat)
    requires s in q.renderSlots && SlotsAccounted(q, f)
    requires q' == q.(renderedImages := q.renderedImages + [RenderedImage(x, s)],
                      renderImages := q'.renderImages, renderSlots := q.renderSlots - multiset{s})
    ensures SlotsAccounted(q', f)
  {
    RenderedAppend(q.renderedImages, RenderedImage(x, s));
    SlotsTotal(q);
    SlotsTotal(q');
  }

  lemma RenderLosesSlot(q: Queues, s: nat, n: nat, f: nat)
    requires s in q.renderSlots && Accounted(q, n, f)
    ensures Accounted(q.(renderSlots := q.renderSlots - multiset{s}, lostSlots := q.lostSlots + multiset{s}), n, f)
  {
    Totals(q, q.(renderSlots := q.renderSlots - multiset{s}, lostSlots := q.lostSlots + multiset{s}));
  }

  lemma RenderLosesImage(q: Queues, x: nat, n: nat, f: nat)
    requires x in q.renderImages && Accounted(q, n, f)
    ensures Accounted(q.(renderImages := q.renderImages - multiset{x}, lostImages := q.lostImages + multiset{x}), n, f)
  {
    Totals(q, q.(renderImages := q.renderImages - multiset{x}, lostImages := q.lostImages + multiset{x}));
  }

  lemma RenderReturnsSlot(q: Queues, s: nat, n: nat, f: nat)
    requires s in q.renderSlots && Accounted(q, n, f)
    ensures Accounted(q.(renderSlots := q.renderSlots - multiset{s}, freeFrameResources := q.freeFrameResources + [s]), n, f)
  {
    Totals(q, q.(renderSlots := q.renderSlots - multiset{s}, freeFrameResources := q.freeFrameResources + [s]));
  }

  lemma RenderReturnsImage(q: Queues, x: nat, n: nat, f: nat)
    requires x in q.renderImages && Accounted(q, n, f)
    ensures Accounted(q.(renderImages := q.renderImages - multiset{x}, availableQueue := q.availableQueue + [x]), n, f)
  {
    Totals(q, q.(renderImages := q.renderImages - multiset{x}, availableQueue := q.availableQueue + [x]));
  }

  /** An image in either thread's hands is one of the transfer images. */
  lemma HeldImageExists(q: Queues, x: nat, n: nat, f: nat)
    requires Accounted(q, n, f) && (x in q.providerImages || x in q.renderImages)
    ensures x < n
  {
    ImagesTotal(q);
    RangeMembers(n, x);
  }

  /** An image id is in exactly one place. */
  lemma EachImageInOnePlace(q: Queues, n: nat, f: nat, id: nat)
    requires Accounted(q, n, f) && id < n
    ensures Total(ImagePlaces(q))[id] == 1
  {
    RangeMembers(n, id);
  }

  /**
   * Slots that are lost never come back: the free list, the rendered
   * queue and the frame in preparation share what is left, so once every
   * slot is lost nothing can be rendered again.
   */
  lemma LostSlotsBound(q: Queues, n: nat, f: nat)
    requires Accounted(q, n, f)
    ensures |q.freeFrameResources| + |q.renderedImages| + |q.renderSlots| + |q.lostSlots| == f
    ensures |q.lostSlots| == f ==> q.freeFrameResources == [] && q.renderedImages == []
  {
    SlotsTotal(q);
    RangeMembers(f, 0);
  }


  // ---------------------------------------------------------------------
  // What a call of `display_queued_image` does, as reference definitions
  // ---------------------------------------------------------------------

  /** The first `k` rendered frames reclaimed: slots to the free list, images to the available queue. */
  function Reclaimed(q: Queues, k: nat): (r: Queues)
    requires k <= |q.renderedImages|
    ensures |r.renderedImages| == |q.renderedImages| - k
    ensures |r.freeFrameResources| == |q.freeFrameResources| + k
  {
    q.(renderedImages := q.renderedImages[k..],
       freeFrameResources := q.freeFrameResources + Slots(q.renderedImages[..k]),
       availableQueue := q.availableQueue + Images(q.renderedImages[..k]))
  }

  /** Reclaiming one more frame is reclaiming the front of what is left. */
  lemma ReclaimedStep(q: Queues, k: nat)
    requires k < |q.renderedImages|
    ensures Reclaimed(q, k + 1) == Reclaimed(q, k).(
      renderedImages := Reclaimed(q, k).renderedImages[1..],
      freeFrameResources := Reclaimed(q, k).freeFrameResources + [q.renderedImages[k].slot],
      availableQueue := Reclaimed(q, k).availableQueue + [q.renderedImages[k].image])
  {
    RenderedSplit(q.renderedImages, k);
    assert q.renderedImages[k + 1..] == q.renderedImages[k..][1..];
  }

  /** `LeadingSuccesses` is the index of the first fence that is not signalled. */
  lemma {:induction false} LeadingSuccessesAt(fences: seq<VkResult>, i: nat)
    requires i <= |fences| && forall j :: 0 <= j < i ==> fences[j] == Success
    requires i < |fences| ==> fences[i] != Success
    ensures LeadingSuccesses(fences) == i
  {
    if i > 0 {
      LeadingSuccessesAt(fences[1..], i - 1);
    }
  }

  /** The environment answers one call: a fence per rendered frame, four acquisitions, three retries. */
  predicate EnvShaped(env: RenderEnv, q: Queues)
  {
    && |env.fences| == |q.renderedImages|
    && |env.acquires| == MAX_SWAPCHAIN_RECREATIONS + 1 && |env.retryWindows| == MAX_SWAPCHAIN_RECREATIONS
    && SurfaceValid(env.surface)
  }

  /** The window is visible, the reclaim loop ends without an error, and a slot is free afterwards. */
  predicate ReachesFrame(env: RenderEnv, q: Queues)
  {
    !IsMinimizedAsWritten(env.window) && !FenceWaitFails(env.fences) && |q.freeFrameResources| + LeadingSuccesses(env.fences) > 0
  }

  /** A filled image (and not a null pointer) waits at the front of the filled queue. */
  predicate HasFrame(q: Queues)
  {
    q.filledQueue != [] && q.filledQueue[0].Some?
  }

  /** The call shows the front of the filled queue. */
  predicate Displayed(env: RenderEnv, q: Queues)
    requires EnvShaped(env, q)
  {
    && ReachesFrame(env, q) && HasFrame(q)
    && AcquireOutcome(env.acquires, env.retryWindows, 0).Acquired?
    && FrameShown(env.submit, env.present)
  }

  /** The call throws: a fence wait fails, no swapchain image can be had, or the submission or the present fails. */
  predicate DisplayFails(env: RenderEnv, q: Queues)
    requires EnvShaped(env, q)
  {
    && !IsMinimizedAsWritten(env.window)
    && (|| FenceWaitFails(env.fences)
        || (&& ReachesFrame(env, q) && HasFrame(q)
            && (|| AcquireOutcome(env.acquires, env.retryWindows, 0).AcquireFailed?
                || (AcquireOutcome(env.acquires, env.retryWindows, 0).Acquired? && !FrameShown(env.submit, env.present)))))
  }

  /** The call takes a slot and then finds no filled image (the timed dequeue fails or yields a null pointer). */
  predicate Stalls(env: RenderEnv, q: Queues)
  {
    ReachesFrame(env, q) && !HasFrame(q)
  }

  /** The render thread lets go of the image `x` and the slot `s` it holds: both handed back (`handBack`) or both lost. */
  function Released(q: Queues, x: nat, s: nat, handBack: bool): Queues
  {
    var q1 := q.(renderImages := q.renderImages - multiset{x}, renderSlots := q.renderSlots - multiset{s});
    if handBack then q1.(availableQueue := q.availableQueue + [x], freeFrameResources := q.freeFrameResources + [s])
    else q1.(lostImages := q.lostImages + multiset{x}, lostSlots := q.lostSlots + multiset{s})
  }

  /** The held image `x` is submitted in the slot `s` and waits behind its fence as the newest rendered frame. */
  function Rendered(q: Queues, x: nat, s: nat): Queues
  {
    q.(renderedImages := q.renderedImages + [RenderedImage(x, s)],
       renderImages := q.renderImages - multiset{x}, renderSlots := q.renderSlots - multiset{s})
  }

  /**
   * The queues once the render thread has taken the last free slot and
   * dequeued the front of the filled queue, which points to the image `x`.
   */
  function Held(q: Queues, x: nat): Queues
    requires q.freeFrameResources != [] && q.filledQueue != []
  {
    q.(freeFrameResources := DropLast(q.freeFrameResources), filledQueue := q.filledQueue[1..],
       renderImages := q.renderImages + multiset{x}, renderSlots := q.renderSlots + multiset{Last(q.freeFrameResources)})
  }

  /**
   * The queues once the acquisition has ended as `o` for a frame holding
   * the image `x` and the slot `s`: shown, lost on an error, or after a
   * window minimized during the retries handed back (or, as written, lost).
   */
  function FrameEnd(q: Queues, x: nat, s: nat, o: Acquisition, submit: VkResult, present: VkResult,
                    asWritten: bool): Queues
  {
    match o
    case Acquired(_) => if FrameShown(submit, present) then Rendered(q, x, s) else Released(q, x, s, false)
    case AcquireFailed(_) => Released(q, x, s, false)
    case MinimizedWhileRetrying => Released(q, x, s, !asWritten)
  }

  /** A frame that is not shown lets go of its image and slot, handing them back only after a minimized retry. */
  lemma FrameEndReleases(q: Queues, x: nat, s: nat, o: Acquisition, submit: VkResult, present: VkResult, asWritten: bool)
    requires !(o.Acquired? && FrameShown(submit, present))
    ensures FrameEnd(q, x, s, o, submit, present, asWritten) == Released(q, x, s, !asWritten && o.MinimizedWhileRetrying?)
  {
  }

  /**
   * The queues at the end of a frame that held the image `x` and the slot
   * `s` from the queues `h`: as `FrameEnd` says, after the next filled
   * image was discarded when the window was minimized during the retries.
   */
  function HeldQueues(h: Queues, x: nat, s: nat, o: Acquisition, submit: VkResult, present: VkResult,
                      asWritten: bool): Queues
  {
    FrameEnd(if o.MinimizedWhileRetrying? then DiscardFront(h) else h, x, s, o, submit, present, asWritten)
  }

  /**
   * The queues after the part of `display_queued_image` that follows the
   * reclaim loop, from the queues `q` it finds then. With no free slot
   * nothing changes. Otherwise the last free slot is taken and the front
   * of the filled queue (if any) dequeued; a missing or null image ends the
   * frame, the slot going back (or, as written, lost); a real image is held
   * and its frame ends as `HeldQueues` says.
   */
  function SlotQueues(env: RenderEnv, q: Queues, asWritten: bool): Queues
    requires |env.acquires| == MAX_SWAPCHAIN_RECREATIONS + 1 && |env.retryWindows| == MAX_SWAPCHAIN_RECREATIONS
  {
    if q.freeFrameResources == [] then q
    else
      var s := Last(q.freeFrameResources);
      var rest := if q.filledQueue == [] then [] else q.filledQueue[1..];
      if !HasFrame(q) then
        if asWritten then
          q.(freeFrameResources := DropLast(q.freeFrameResources), filledQueue := rest,
             lostSlots := q.lostSlots + multiset{s})
        else q.(filledQueue := rest)
      else
        var x := q.filledQueue[0].value;
        HeldQueues(Held(q, x), x, s, AcquireOutcome(env.acquires, env.retryWindows, 0), env.submit, env.present, asWritten)
  }

  /**
   * What one call of `display_queued_image` does, as a relation between
   * the queues before (`q`) and after (`q'`) and its result `r`: it shows
   * the front of the filled queue exactly when `Displayed`, throws exactly
   * when `DisplayFails`, and a shown frame waits behind its fence as the
   * newest rendered image. Handing a held slot or image back (`!asWritten`)
   * never loses one; the source (`asWritten`) loses the slot it took when
   * no filled image arrives, and on an idle stream that is the only change.
   * The new queues are given in full: a minimized window discards the front
   * filled image, a failed fence wait leaves the frames reclaimed before it,
   * and otherwise the rest of the call runs from the reclaimed queues.
   */
  ghost predicate FrameOutcome(env: RenderEnv, q: Queues, q': Queues, r: Result<bool>, asWritten: bool)
    requires EnvShaped(env, q)
  {
    && FrameSummary(env, q, q', r, asWritten)
    && (IsMinimizedAsWritten(env.window) ==> r == Ok(false) && q' == DiscardFront(q))
    && (!IsMinimizedAsWritten(env.window) && FenceWaitFails(env.fences) ==>
          q' == Reclaimed(q, LeadingSuccesses(env.fences)))
    && (!IsMinimizedAsWritten(env.window) && !FenceWaitFails(env.fences) ==>
          SlotOutcome(env, Reclaimed(q, LeadingSuccesses(env.fences)), q', r, asWritten))
  }

  /** The part of `FrameOutcome` that says what the result means and which frame is shown or which slot lost. */
  ghost predicate FrameSummary(env: RenderEnv, q: Queues, q': Queues, r: Result<bool>, asWritten: bool)
    requires EnvShaped(env, q)
  {
    && (r == Ok(true) <==> Displayed(env, q))
    && (r.Err? <==> DisplayFails(env, q))
    && (r == Ok(true) ==>
          && HasFrame(q) && q'.filledQueue == q.filledQueue[1..] && q'.renderedImages != []
          && q'.renderedImages[|q'.renderedImages| - 1].image == q.filledQueue[0].value)
    && (!asWritten && r.Ok? ==> q'.lostImages == q.lostImages && q'.lostSlots == q.lostSlots)
    && (asWritten && Stalls(env, q) ==> r == Ok(false) && |q'.lostSlots| == |q.lostSlots| + 1)
    && (asWritten && !IsMinimizedAsWritten(env.window) && q.renderedImages == [] && q.filledQueue == []
        && q.freeFrameResources != [] ==>
          q' == q.(freeFrameResources := DropLast(q.freeFrameResources),
                   lostSlots := q.lostSlots + multiset{Last(q.freeFrameResources)}))
  }

  /**
   * What `display_queued_image` does after its reclaim loop, from the
   * queues `q` it finds then: with no free slot it skips the frame; with
   * one it shows a filled image (not a null pointer) exactly when a
   * swapchain image is acquired, the submission succeeds and the present is
   * tolerated. The new queues are `SlotQueues`.
   */
  ghost predicate SlotOutcome(env: RenderEnv, q: Queues, q': Queues, r: Result<bool>, asWritten: bool)
    requires |env.acquires| == MAX_SWAPCHAIN_RECREATIONS + 1 && |env.retryWindows| == MAX_SWAPCHAIN_RECREATIONS
  {
    SlotSummary(env, q, q', r, asWritten) && q' == SlotQueues(env, q, asWritten)
  }

  /** The part of `SlotOutcome` that says what the result means and which frame is shown or which slot lost. */
  ghost predicate SlotSummary(env: RenderEnv, q: Queues, q': Queues, r: Result<bool>, asWritten: bool)
    requires |env.acquires| == MAX_SWAPCHAIN_RECREATIONS + 1 && |env.retryWindows| == MAX_SWAPCHAIN_RECREATIONS
  {
    var o := AcquireOutcome(env.acquires, env.retryWindows, 0);
    var proceeds := q.freeFrameResources != [] && HasFrame(q);
    && (r == Ok(true) <==> proceeds && o.Acquired? && FrameShown(env.submit, env.present))
    && (r.Err? <==> proceeds && (o.AcquireFailed? || (o.Acquired? && !FrameShown(env.submit, env.present))))
    && (r == Ok(true) ==>
          && HasFrame(q) && q'.filledQueue == q.filledQueue[1..] && q'.renderedImages != []
          && q'.renderedImages[|q'.renderedImages| - 1].image == q.filledQueue[0].value)
    && (!asWritten && r.Ok? ==> q'.lostImages == q.lostImages && q'.lostSlots == q.lostSlots)
    && (q.freeFrameResources == [] ==> r == Ok(false) && q' == q)
    && (asWritten && q.freeFrameResources != [] && !HasFrame(q) ==>
          && r == Ok(false)
          && q' == q.(freeFrameResources := DropLast(q.freeFrameResources),
                      filledQueue := if q.filledQueue == [] then [] else q.filledQueue[1..],
                      lostSlots := q.lostSlots + multiset{Last(q.freeFrameResources)}))
  }

  /** A slot is free but no filled image arrives: the frame shows nothing, and only the queues `SlotQueues` gives change. */
  lemma SlotStalled(env: RenderEnv, q: Queues, q': Queues, asWritten: bool)
    requires |env.acquires| == MAX_SWAPCHAIN_RECREATIONS + 1 && |env.retryWindows| == MAX_SWAPCHAIN_RECREATIONS
    requires q.freeFrameResources != [] && !HasFrame(q) && q' == SlotQueues(env, q, asWritten)
    ensures SlotOutcome(env, q, q', Ok(false), asWritten)
  {
  }

  /**
   * A frame that holds the front filled image and the last free slot ends
   * as `HeldQueues` says, with the result the acquisition, the submission
   * and the present give.
   */
  lemma SlotHeldFrame(env: RenderEnv, q: Queues, q': Queues, r: Result<bool>, asWritten: bool)
    requires |env.acquires| == MAX_SWAPCHAIN_RECREATIONS + 1 && |env.retryWindows| == MAX_SWAPCHAIN_RECREATIONS
    requires q.freeFrameResources != [] && HasFrame(q)
    requires var o := AcquireOutcome(env.acquires, env.retryWindows, 0);
      && (r == Ok(true) <==> o.Acquired? && FrameShown(env.submit, env.present))
      && (r.Err? <==> o.AcquireFailed? || (o.Acquired? && !FrameShown(env.submit, env.present)))
      && q' == HeldQueues(Held(q, q.filledQueue[0].value), q.filledQueue[0].value, Last(q.freeFrameResources), o,
                          env.submit, env.present, asWritten)
    ensures SlotOutcome(env, q, q', r, asWritten)
  {
    SlotHeldSummary(env, q, q', r, asWritten);
  }

  /** `SlotHeldFrame` for the result, the frame shown and the slots kept. */
  lemma SlotHeldSummary(env: RenderEnv, q: Queues, q': Queues, r: Result<bool>, asWritten: bool)
    requires |env.acquires| == MAX_SWAPCHAIN_RECREATIONS + 1 && |env.retryWindows| == MAX_SWAPCHAIN_RECREATIONS
    requires q.freeFrameResources != [] && HasFrame(q)
    requires var o := AcquireOutcome(env.acquires, env.retryWindows, 0);
      && (r == Ok(true) <==> o.Acquired? && FrameShown(env.submit, env.present))
      && (r.Err? <==> o.AcquireFailed? || (o.Acquired? && !FrameShown(env.submit, env.present)))
      && q' == HeldQueues(Held(q, q.filledQueue[0].value), q.filledQueue[0].value, Last(q.freeFrameResources), o,
                          env.submit, env.present, asWritten)
    ensures SlotSummary(env, q, q', r, asWritten)
  {
    var x, s := q.filledQueue[0].value, Last(q.freeFrameResources);
    var o := AcquireOutcome(env.acquires, env.retryWindows, 0);
    HeldQueuesMoves(Held(q, x), x, s, o, env.submit, env.present, asWritten);
    if r == Ok(true) {
      assert q'.renderedImages == q.renderedImages + [RenderedImage(x, s)];
    }
  }

  /**
   * A held frame that is shown leaves the filled queue alone and becomes
   * the newest rendered frame; one handed back loses nothing.
   */
  lemma HeldQueuesMoves(h: Queues, x: nat, s: nat, o: Acquisition, submit: VkResult, present: VkResult, asWritten: bool)
    ensures var h' := HeldQueues(h, x, s, o, submit, present, asWritten);
      && (o.Acquired? && FrameShown(submit, present) ==>
            h'.filledQueue == h.filledQueue && h'.renderedImages == h.renderedImages + [RenderedImage(x, s)])
      && (!asWritten && (o.MinimizedWhileRetrying? || (o.Acquired? && FrameShown(submit, present))) ==>
            h'.lostImages == h.lostImages && h'.lostSlots == h.lostSlots)
  {
  }

  /** With no free slot the frame is skipped and nothing changes. */
  lemma SlotSkipped(env: RenderEnv, q: Queues, asWritten: bool)
    requires |env.acquires| == MAX_SWAPCHAIN_RECREATIONS + 1 && |env.retryWindows| == MAX_SWAPCHAIN_RECREATIONS
    requires q.freeFrameResources == []
    ensures SlotOutcome(env, q, q, Ok(false), asWritten)
  {
  }

  /** A minimized window discards the front filled image and shows nothing. */
  lemma MinimizedFrame(env: RenderEnv, q: Queues, asWritten: bool)
    requires EnvShaped(env, q) && IsMinimizedAsWritten(env.window)
    ensures FrameOutcome(env, q, DiscardFront(q), Ok(false), asWritten)
  {
  }

  /**
   * A fence wait that fails makes the call throw, leaving the queues as the
   * reclaim loop left them: the frames whose fences were signalled before
   * it are reclaimed and nothing else moves.
   */
  lemma FenceFailureFrame(env: RenderEnv, q: Queues, message: string, asWritten: bool)
    requires EnvShaped(env, q) && !IsMinimizedAsWritten(env.window) && FenceWaitFails(env.fences)
    ensures FrameOutcome(env, q, Reclaimed(q, LeadingSuccesses(env.fences)), Err(message), asWritten)
  {
  }

  /**
   * After a reclaim loop that ends without an error, the call does what
   * the rest of `display_queued_image` does from the reclaimed queues.
   */
  lemma ReclaimedFrame(env: RenderEnv, q: Queues, q': Queues, r: Result<bool>, asWritten: bool)
    requires EnvShaped(env, q) && !IsMinimizedAsWritten(env.window) && !FenceWaitFails(env.fences)
    requires SlotOutcome(env, Reclaimed(q, LeadingSuccesses(env.fences)), q', r, asWritten)
    ensures FrameOutcome(env, q, q', r, asWritten)
  {
    ReclaimedSummary(env, q, q', r, asWritten);
  }

  /** `ReclaimedFrame` for the result, the frame shown and the slot lost. */
  lemma ReclaimedSummary(env: RenderEnv, q: Queues, q': Queues, r: Result<bool>, asWritten: bool)
    requires EnvShaped(env, q) && !IsMinimizedAsWritten(env.window) && !FenceWaitFails(env.fences)
    requires SlotSummary(env, Reclaimed(q, LeadingSuccesses(env.fences)), q', r, asWritten)
    ensures FrameSummary(env, q, q', r, asWritten)
  {
    var k := LeadingSuccesses(env.fences);
    if q.renderedImages == [] {
      assert Reclaimed(q, k) == q by {
        assert q.renderedImages[..0] == [];
      }
    }
  }

  /**
   * Once every frame slot has been lost, the free list and the rendered
   * queue are empty for good, so no call can display anything again.
   */
  lemma NothingDisplayedOnceSlotsLost(env: RenderEnv, q: Queues, n: nat, f: nat)
    requires Accounted(q, n, f) && EnvShaped(env, q) && |q.lostSlots| == f
    ensures !Displayed(env, q) && !Stalls(env, q)
  {
    LostSlotsBound(q, n, f);
    assert env.fences == [];
  }

  // ---------------------------------------------------------------------
  // The display
  // ---------------------------------------------------------------------

  class VulkanDisplay {
    const context: Context
    /** `frame_resources.size()`. */
    const frameCount: nat
    /** Capacity of `filled_img_queue`. */
    const filledCapacity: nat
    const vulkanVersion: nat

    /** `transfer_images`: the description of each image, by id. */
    var descriptions: seq<ImageDescription>
    var queues: Queues
    var currentDescription: ImageDescription
    var formatConversionEnabled: bool
    /** Whether a Y'CbCr conversion and its sampler exist. */
    var yCbCrConversion: bool
    /** `frame_resources[i].converted_image`, while format conversion is enabled. */
    var convertedImages: seq<ImageDescription>
    /** What is allocated from `descriptor_pool`. */
    var poolUse: Descriptors
    var renderTargets: Option<RenderTargets>
    var destroyed: bool

    /** Every image id and every frame slot is in exactly one place. */
    ghost predicate Valid()
      reads this`queues, this`descriptions
    {
      && frameCount > 0 && filledCapacity > 0 && |queues.filledQueue| <= filledCapacity
      && Accounted(queues, |descriptions|, frameCount)
    }

    /** Between calls the render thread holds no image and no slot. */
    ghost predicate Idle()
      reads this`queues
    {
      queues.renderImages == multiset{} && queues.renderSlots == multiset{}
    }

    /** The render state matches the current description, and fits its descriptor pool. */
    ghost predicate RenderStateConsistent()
      reads this`formatConversionEnabled, this`currentDescription, this`yCbCrConversion,
               this`convertedImages, this`poolUse
    {
      && formatConversionEnabled == (currentDescription.format == FORMAT_R8G8B8A8_UNORM)
      && yCbCrConversion == IsYCbCrFormat(currentDescription.format)
      && (formatConversionEnabled ==> convertedImages == ConvertedImages(frameCount, currentDescription.size))
      && FitsIn(poolUse, CreateDescriptorPool(frameCount))
    }

    /** A transfer image is in exactly one place. */
    lemma EachImageInOnePlace(id: nat)
      requires Valid() && id < |descriptions|
      ensures Total(ImagePlaces(queues))[id] == 1
    {
      RangeMembers(|descriptions|, id);
    }

    /** `init`: images `0..n-1`, all in the provider's list, and every frame slot free. */
    constructor (ctx: Context, initialImageCount: nat, frames: nat, filledCap: nat, version: nat)
      requires frames > 0 && filledCap > 0
      ensures Valid() && Idle() && RenderStateConsistent()
      ensures context == ctx && frameCount == frames && filledCapacity == filledCap && vulkanVersion == version
      ensures descriptions == seq(initialImageCount, _ => NEW_IMAGE_DESCRIPTION)
      ensures queues == InitialQueues(initialImageCount, frames)
      ensures currentDescription == NEW_IMAGE_DESCRIPTION && !formatConversionEnabled && !yCbCrConversion
      ensures poolUse == NO_DESCRIPTORS && renderTargets.None? && !destroyed
    {
      var images: seq<ImageDescription> := [];
      var available: seq<nat> := [];
      var i := 0;
      while i < initialImageCount
        invariant i <= initialImageCount
        invariant images == seq(i, _ => NEW_IMAGE_DESCRIPTION) && available == Range(i)
      {
        images := images + [NEW_IMAGE_DESCRIPTION];
        available := available + [i];
        i := i + 1;
      }
      var free: seq<nat> := [];
      var j := 0;
      while j < frames
        invariant j <= frames && free == Range(j)
      {
        free := free + [j];
        j := j + 1;
      }
      context := ctx;
      frameCount := frames;
      filledCapacity := filledCap;
      vulkanVersion := version;
      descriptions := images;
      var initial := Queues(available, [], [], [], free, multiset{}, multiset{}, multiset{}, multiset{}, multiset{});
      assert initial == InitialQueues(initialImageCount, frames);
      queues := initial;
      currentDescription := NEW_IMAGE_DESCRIPTION;
      formatConversionEnabled := false;
      yCbCrConversion := false;
      convertedImages := [];
      poolUse := NO_DESCRIPTORS;
      renderTargets := None;
      destroyed := false;
    }

    /** `destroy`: releases everything once; later calls (and the destructor) do nothing. */
    method Destroy()
      modifies this`destroyed
      ensures destroyed
    {
      if !destroyed {
        destroyed := true;
      }
    }

    /** The destructor: `destroy` runs only if it has not run yet. */
    method Destructor() returns (destroyedNow: bool)
      modifies this`destroyed
      ensures destroyed && destroyedNow == !old(destroyed)
    {
      destroyedNow := !destroyed;
      if !destroyed {
        Destroy();
      }
    }

    /**
     * `is_image_description_supported`: a Y'CbCr format the device cannot
     * sample is unsupported; otherwise the transfer-image query decides.
     */
    function IsImageDescriptionSupported(query: VkResult, maxExtent: Extent2D, d: ImageDescription): (r: Result<bool>)
      reads context
      ensures !context.yCbCrSupported && IsYCbCrFormat(d.format) ==> r == Ok(false)
      ensures r.Ok? && r.value ==>
        && (context.yCbCrSupported || !IsYCbCrFormat(d.format))
        && query == Success && d.size.width <= maxExtent.width && d.size.height <= maxExtent.height
      ensures r.Err? <==>
        && (context.yCbCrSupported || !IsYCbCrFormat(d.format))
        && query != Success && query != ErrorFormatNotSupported
    {
      if !context.yCbCrSupported && IsYCbCrFormat(d.format) then Ok(false)
      else TransferImage.IsImageDescriptionSupported(query, maxExtent, d)
    }

    /**
     * `discard_filled_image`: drops the front of the filled queue, handing
     * the image (if it is not null) back through the available queue.
     */
    method DiscardFilledImage()
      requires Valid()
      modifies this`queues
      ensures old(RenderStateConsistent()) ==> RenderStateConsistent()
      ensures Valid() && queues == DiscardFront(old(queues))
    {
      DiscardFrontAccounted(queues, |descriptions|, frameCount);
      ghost var next := DiscardFront(queues);
      if queues.filledQueue != [] {
        var front := queues.filledQueue[0];
        queues := queues.(filledQueue := queues.filledQueue[1..]);
        if front.Some? {
          queues := queues.(availableQueue := queues.availableQueue + [front.value]);
        }
      }
      assert queues == next;
    }

    /**
     * `acquire_transfer_image`: the back of the provider's list, else the
     * front of the available queue, else a new image with the next id.
     * The image passes into the provider's hands.
     */
    method AcquireTransferImage() returns (id: nat)
      requires Valid()
      modifies this`queues, this`descriptions
      ensures Valid() && id < |descriptions| && |descriptions| >= |old(descriptions)|
      ensures queues.providerImages == old(queues.providerImages) + multiset{id}
      ensures queues.lostImages == old(queues.lostImages) && queues.filledQueue == old(queues.filledQueue)
      ensures old(queues.availableImages) != [] ==>
        && id == Last(old(queues.availableImages)) && descriptions == old(descriptions)
        && queues == old(queues).(availableImages := DropLast(old(queues.availableImages)),
                                  providerImages := old(queues.providerImages) + multiset{id})
      ensures old(queues.availableImages) == [] && old(queues.availableQueue) != [] ==>
        && id == old(queues.availableQueue)[0] && descriptions == old(descriptions)
        && queues == old(queues).(availableQueue := old(queues.availableQueue)[1..],
                                  providerImages := old(queues.providerImages) + multiset{id})
      ensures old(queues.availableImages) == [] && old(queues.availableQueue) == [] ==>
        && id == |old(descriptions)| && descriptions == old(descriptions) + [NEW_IMAGE_DESCRIPTION]
        && queues == old(queues).(providerImages := old(queues.providerImages) + multiset{id})
    {
      if queues.availableImages != [] {
        id := Last(queues.availableImages);
        TakeFromList(queues, |descriptions|, frameCount);
        queues := queues.(availableImages := DropLast(queues.availableImages), providerImages := queues.providerImages + multiset{id});
      } else if queues.availableQueue != [] {
        id := queues.availableQueue[0];
        TakeFromQueue(queues, |descriptions|, frameCount);
        queues := queues.(availableQueue := queues.availableQueue[1..], providerImages := queues.providerImages + multiset{id});
      } else {
        id := |descriptions|;
        TakeNew(queues, id, frameCount);
        descriptions := descriptions + [NEW_IMAGE_DESCRIPTION];
        queues := queues.(providerImages := queues.providerImages + multiset{id});
      }
    }

    /**
     * `acquire_image`: refuses a Y'CbCr format the device cannot sample
     * (naming Vulkan 1.1 when the instance is 1.0), then takes a transfer
     * image and recreates it if its description differs. `recreateError`
     * is the failure of that recreation, if it fails; the image is then lost.
     */
    method AcquireImage(description: ImageDescription, recreateError: Option<string>) returns (r: Result<nat>)
      requires Valid()
      requires description.size.width > 0 && description.size.height > 0 && description.format != FORMAT_UNDEFINED
      modifies this`queues, this`descriptions
      ensures Valid() && queues.filledQueue == old(queues.filledQueue)
      ensures !context.yCbCrSupported && IsYCbCrFormat(description.format) ==>
        r == Err(YCbCrMessage(vulkanVersion)) && queues == old(queues) && descriptions == old(descriptions)
      ensures r.Ok? ==>
        && r.value < |descriptions| && descriptions[r.value] == description
        && queues.providerImages == old(queues.providerImages) + multiset{r.value}
        && queues.lostImages == old(queues.lostImages)
      ensures r.Err? && (context.yCbCrSupported || !IsYCbCrFormat(description.format)) ==>
        && recreateError.Some? && r == Err(recreateError.value)
        && queues.providerImages == old(queues.providerImages) && |queues.lostImages| == |old(queues.lostImages)| + 1
      ensures (context.yCbCrSupported || !IsYCbCrFormat(description.format)) && recreateError.None? ==> r.Ok?
    {
      if !context.yCbCrSupported && IsYCbCrFormat(description.format) {
        return Err(YCbCrMessage(vulkanVersion));
      }
      r := TakeDescribedImage(description, recreateError);
    }

    /**
     * The part of `acquire_image` past the format check: take a transfer
     * image and recreate it when its description differs.
     */
    method TakeDescribedImage(description: ImageDescription, recreateError: Option<string>) returns (r: Result<nat>)
      requires Valid()
      modifies this`queues, this`descriptions
      ensures Valid() && queues.filledQueue == old(queues.filledQueue)
      ensures r.Ok? ==>
        && r.value < |descriptions| && descriptions[r.value] == description
        && queues.providerImages == old(queues.providerImages) + multiset{r.value}
        && queues.lostImages == old(queues.lostImages)
      ensures r.Err? ==>
        && recreateError.Some? && r == Err(recreateError.value)
        && queues.providerImages == old(queues.providerImages) && |queues.lostImages| == |old(queues.lostImages)| + 1
      ensures recreateError.None? ==> r.Ok?
    {
      var id := AcquireTransferImage();
      if descriptions[id] != description {
        var recreated := RecreateTransferImage(id, description, recreateError);
        if !recreated {
          return Err(recreateError.value);
        }
      }
      r := Ok(id);
    }

    /**
     * `recreate` of an image in the provider's hands: on success it takes
     * the new description; on failure (`recreateError`) the image is lost.
     */
    method RecreateTransferImage(id: nat, description: ImageDescription, recreateError: Option<string>) returns (recreated: bool)
      requires Valid() && id in queues.providerImages
      modifies this`queues, this`descriptions
      ensures Valid() && recreated == recreateError.None? && |descriptions| == |old(descriptions)|
      ensures id < |descriptions| && queues.filledQueue == old(queues.filledQueue)
      ensures recreated ==> descriptions == old(descriptions)[id := description] && queues == old(queues)
      ensures !recreated ==>
        && descriptions == old(descriptions)
        && queues == old(queues).(providerImages := old(queues.providerImages) - multiset{id},
                                  lostImages := old(queues.lostImages) + multiset{id})
    {
      HeldImageExists(queues, id, |descriptions|, frameCount);
      if recreateError.Some? {
        ProviderLoses(queues, id, |descriptions|, frameCount);
        queues := queues.(providerImages := queues.providerImages - multiset{id}, lostImages := queues.lostImages + multiset{id});
        return false;
      }
      descriptions := descriptions[id := description];
      return true;
    }

    /**
     * `queue_image`: a frame that may not be dropped waits for room in the
     * filled queue; a discardable one is queued if there is room and
     * otherwise goes back to the provider's list. The result says whether
     * the frame was discarded.
     */
    method QueueImage(id: nat, discardable: bool) returns (discarded: bool)
      requires Valid() && id in queues.providerImages
      requires !discardable ==> |queues.filledQueue| < filledCapacity
      modifies this`queues
      ensures Valid()
      ensures discarded <==> discardable && |old(queues.filledQueue)| == filledCapacity
      ensures !discarded ==> queues == old(queues).(filledQueue := old(queues.filledQueue) + [Some(id)],
                                                   providerImages := old(queues.providerImages) - multiset{id})
      ensures discarded ==> queues == old(queues).(availableImages := old(queues.availableImages) + [id],
                                                  providerImages := old(queues.providerImages) - multiset{id})
    {
      if !discardable || |queues.filledQueue| < filledCapacity {
        ProviderQueues(queues, id, |descriptions|, frameCount);
        queues := queues.(filledQueue := queues.filledQueue + [Some(id)], providerImages := queues.providerImages - multiset{id});
        return false;
      }
      ProviderReturns(queues, id, |descriptions|, frameCount);
      queues := queues.(availableImages := queues.availableImages + [id], providerImages := queues.providerImages - multiset{id});
      return true;
    }

    /**
     * `queue_image` as written: the same moves, but it answers `true` for
     * every discardable frame, also one that was queued.
     */
    method QueueImageAsWritten(id: nat, discardable: bool) returns (r: bool)
      requires Valid() && id in queues.providerImages
      requires !discardable ==> |queues.filledQueue| < filledCapacity
      modifies this`queues
      ensures Valid() && r == discardable
      ensures discardable && |old(queues.filledQueue)| < filledCapacity ==>
        r && queues.filledQueue == old(queues.filledQueue) + [Some(id)]
    {
      var _ := QueueImage(id, discardable);
      r := discardable;
    }

    /** `discard_image`: the provider returns an image it will not queue to its own list. */
    method DiscardImage(id: nat)
      requires Valid() && id in queues.providerImages
      modifies this`queues
      ensures Valid()
      ensures queues == old(queues).(availableImages := old(queues.availableImages) + [id],
                                     providerImages := old(queues.providerImages) - multiset{id})
    {
      ProviderReturns(queues, id, |descriptions|, frameCount);
      queues := queues.(availableImages := queues.availableImages + [id], providerImages := queues.providerImages - multiset{id});
    }

    /**
     * `copy_and_queue_image`: acquires an image of the description, copies
     * the frame into it and queues it, waiting for room.
     */
    method CopyAndQueueImage(description: ImageDescription, recreateError: Option<string>) returns (r: Result<nat>)
      requires Valid() && |queues.filledQueue| < filledCapacity
      requires description.size.width > 0 && description.size.height > 0 && description.format != FORMAT_UNDEFINED
      modifies this`queues, this`descriptions
      ensures Valid()
      ensures r.Ok? ==>
        && r.value < |descriptions| && descriptions[r.value] == description
        && queues.filledQueue == old(queues.filledQueue) + [Some(r.value)]
        && queues.providerImages == old(queues.providerImages)
      ensures r.Err? ==> queues.filledQueue == old(queues.filledQueue) && queues.providerImages == old(queues.providerImages)
      ensures (context.yCbCrSupported || !IsYCbCrFormat(description.format)) && recreateError.None? ==> r.Ok?
    {
      r := AcquireImage(description, recreateError);
      if r.Ok? {
        var _ := QueueImage(r.value, false);
      }
    }

    /**
     * The oldest rendered frame's fence is signalled: its image and its
     * frame slot become free. After `k` such steps from the queues `q0`
     * this is the `k + 1`-th.
     */
    method ReclaimOldest(ghost q0: Queues, ghost k: nat)
      requires Valid() && k < |q0.renderedImages| && queues == Reclaimed(q0, k)
      modifies this`queues
      ensures Valid() && queues == Reclaimed(q0, k + 1)
    {
      ReclaimedStep(q0, k);
      ReclaimFront(queues, |descriptions|, frameCount);
      queues := queues.(renderedImages := queues.renderedImages[1..],
                        freeFrameResources := queues.freeFrameResources + [queues.renderedImages[0].slot],
                        availableQueue := queues.availableQueue + [queues.renderedImages[0].image]);
    }

    /**
     * The reclaim loop of `display_queued_image`: frames whose fence is
     * signalled are reclaimed, oldest first, until a fence times out; any
     * other fence result is an error.
     */
    method ReclaimRenderedImages(fences: seq<VkResult>) returns (err: Option<string>)
      requires Valid() && |fences| == |queues.renderedImages|
      modifies this`queues
      ensures old(RenderStateConsistent()) ==> RenderStateConsistent()
      ensures Valid()
      ensures queues == Reclaimed(old(queues), LeadingSuccesses(fences))
      ensures err.Some? <==> FenceWaitFails(fences)
      ensures err.Some? ==> err.value == FENCE_WAIT_FAILED
    {
      ghost var q0 := queues;
      var i := 0;
      assert q0.renderedImages[..0] == [];
      while i < |fences| && fences[i] == Success
        invariant i <= |fences| && |queues.renderedImages| == |fences| - i
        invariant forall j :: 0 <= j < i ==> fences[j] == Success
        invariant queues == Reclaimed(q0, i) && Valid()
      {
        ReclaimOldest(q0, i);
        i := i + 1;
      }
      LeadingSuccessesAt(fences, i);
      err := if i < |fences| && fences[i] != Timeout then Some(FENCE_WAIT_FAILED) else None;
    }
  
    /**
     * What `reconfigure` rebuilds when the format changes: the pool is reset,
     * a Y'CbCr conversion exists exactly for Y'CbCr formats, one render set
     * per frame is allocated, and an `R8G8B8A8Unorm` stream also gets
     * converted images of its size and the conversion's source and
     * destination sets.
     */
    method RebuildFormatDependent(d: ImageDescription)
      modifies this`formatConversionEnabled, this`yCbCrConversion, this`convertedImages, this`poolUse
      ensures formatConversionEnabled == (d.format == FORMAT_R8G8B8A8_UNORM)
      ensures yCbCrConversion == IsYCbCrFormat(d.format)
      ensures formatConversionEnabled ==> convertedImages == ConvertedImages(frameCount, d.size)
      ensures poolUse == AllocatedSets(frameCount, formatConversionEnabled)
    {
      poolUse := NO_DESCRIPTORS;
      yCbCrConversion := IsYCbCrFormat(d.format);
      poolUse := AllocateSets(poolUse, SampledImageLayout, frameCount);
      formatConversionEnabled := false;
      if d.format == FORMAT_R8G8B8A8_UNORM {
        formatConversionEnabled := true;
        convertedImages := ConvertedImages(frameCount, d.size);
        poolUse := AllocateSets(poolUse, SampledImageLayout, frameCount);
        poolUse := AllocateSets(poolUse, StorageImageLayout, frameCount);
      }
    }

    /**
     * `reconfigure` as written: the format-dependent state is rebuilt only
     * when the format changes, so a stream that keeps `R8G8B8A8Unorm` and
     * changes size keeps converted images of the old size.
     */
    method ReconfigureAsWritten(d: ImageDescription)
      requires frameCount > 0
      modifies this`currentDescription, this`formatConversionEnabled, this`yCbCrConversion, this`convertedImages,
               this`poolUse, this`renderTargets
      ensures currentDescription == d && renderTargets == UpdateRenderArea(context.windowSize, d.size)
      ensures d.format != old(currentDescription.format) ==> RenderStateConsistent()
      ensures d.format == old(currentDescription.format) ==>
        && convertedImages == old(convertedImages) && formatConversionEnabled == old(formatConversionEnabled)
        && poolUse == old(poolUse) && yCbCrConversion == old(yCbCrConversion)
      ensures old(RenderStateConsistent()) && old(formatConversionEnabled)
              && d.format == old(currentDescription.format) && d.size != old(currentDescription.size) ==>
        formatConversionEnabled && convertedImages[0].size != d.size && !RenderStateConsistent()
    {
      if d.format != currentDescription.format {
        RebuildFormatDependent(d);
      }
      currentDescription := d;
      renderTargets := UpdateRenderArea(context.windowSize, d.size);
    }

    /**
     * `reconfigure`, with the converted images also recreated when an
     * `R8G8B8A8Unorm` stream changes size: the render state always matches
     * the new description.
     */
    method Reconfigure(d: ImageDescription)
      requires RenderStateConsistent()
      modifies this`currentDescription, this`formatConversionEnabled, this`yCbCrConversion, this`convertedImages,
               this`poolUse, this`renderTargets
      ensures currentDescription == d && renderTargets == UpdateRenderArea(context.windowSize, d.size)
      ensures RenderStateConsistent()
      ensures d.format == old(currentDescription.format) ==>
        formatConversionEnabled == old(formatConversionEnabled) && poolUse == old(poolUse)
    {
      if d.format != currentDescription.format {
        RebuildFormatDependent(d);
      } else if formatConversionEnabled && d.size != currentDescription.size {
        convertedImages := ConvertedImages(frameCount, d.size);
      }
      currentDescription := d;
      renderTargets := UpdateRenderArea(context.windowSize, d.size);
    }

    /** One retry of the acquisition: the swapchain is recreated for `window` and the render area follows it. */
    method RecreateForWindow(window: WindowParameters, surface: Surface)
      requires SurfaceValid(surface)
      modifies context, this`renderTargets
      ensures renderTargets == UpdateRenderArea(Extent2D(window.width, window.height), currentDescription.size)
    {
      context.RecreateSwapchain(window, surface.caps, surface.modes, surface.formats);
      renderTargets := UpdateRenderArea(Extent2D(window.width, window.height), currentDescription.size);
    }

    /**
     * The acquisition loop of `display_queued_image`: an out-of-date or
     * timed-out swapchain image makes it recreate the swapchain for the
     * current window size and update the render area, at most three times;
     * a window minimized meanwhile discards a filled image and ends the frame.
     */
    method AcquireSwapchainImage(acquires: seq<Result<U32>>, windows: seq<WindowParameters>, surface: Surface)
      returns (o: Acquisition)
      requires Valid()
      requires |acquires| == MAX_SWAPCHAIN_RECREATIONS + 1 && |windows| == MAX_SWAPCHAIN_RECREATIONS
      requires SurfaceValid(surface)
      modifies context, this`renderTargets, this`queues
      ensures Valid() && o == AcquireOutcome(acquires, windows, 0)
      ensures old(RenderStateConsistent()) ==> RenderStateConsistent()
      ensures o == MinimizedWhileRetrying ==> queues == DiscardFront(old(queues))
      ensures o != MinimizedWhileRetrying ==> queues == old(queues)
      ensures renderTargets == old(renderTargets) || ForSomeRetry(renderTargets, windows, currentDescription.size)
    {
      o := RetryAcquisition(acquires, windows, surface);
      if o == MinimizedWhileRetrying {
        DiscardFilledImage();
      }
    }

    /**
     * The retries of the acquisition loop, up to the point where it ends:
     * with a usable index, an error, the fourth out-of-date or timed-out
     * image, or a window found minimized.
     */
    method RetryAcquisition(acquires: seq<Result<U32>>, windows: seq<WindowParameters>, surface: Surface)
      returns (o: Acquisition)
      requires |acquires| == MAX_SWAPCHAIN_RECREATIONS + 1 && |windows| == MAX_SWAPCHAIN_RECREATIONS
      requires SurfaceValid(surface)
      modifies context, this`renderTargets
      ensures o == AcquireOutcome(acquires, windows, 0)
      ensures old(RenderStateConsistent()) ==> RenderStateConsistent()
      ensures renderTargets == old(renderTargets) || ForSomeRetry(renderTargets, windows, currentDescription.size)
    {
      ghost var outcome := AcquireOutcome(acquires, windows, 0);
      var attempt := 0;
      var acquired := acquires[0];
      while acquired.Ok? && IsSentinel(acquired.value)
        invariant attempt <= MAX_SWAPCHAIN_RECREATIONS && acquired == acquires[attempt]
        invariant AcquireOutcome(acquires, windows, attempt) == outcome
        invariant old(RenderStateConsistent()) ==> RenderStateConsistent()
        invariant renderTargets == old(renderTargets) || ForSomeRetry(renderTargets, windows, currentDescription.size)
        decreases MAX_SWAPCHAIN_RECREATIONS - attempt
      {
        attempt := attempt + 1;
        if attempt > MAX_SWAPCHAIN_RECREATIONS {
          return AcquireFailed(CANNOT_ACQUIRE);
        }
        var window := windows[attempt - 1];
        if IsMinimizedAsWritten(window) {
          return MinimizedWhileRetrying;
        }
        RecreateForWindow(window, surface);
        assert windows[attempt - 1] == window;
        acquired := acquires[attempt];
      }
      o := if acquired.Err? then AcquireFailed(acquired.message) else Acquired(acquired.value);
    }

    /**
     * `window_parameters_changed`: a new size that differs from the
     * context's and is not minimized recreates the swapchain and updates
     * the render area; anything else changes nothing.
     */
    method WindowParametersChanged(parameters: WindowParameters, surface: Surface)
      requires SurfaceValid(surface)
      modifies context, this`renderTargets
      ensures var changed := Extent2D(parameters.width, parameters.height) != old(context.windowSize) && !IsMinimizedAsWritten(parameters);
        && (changed ==>
              && context.windowSize == ClampExtent(Extent2D(parameters.width, parameters.height), surface.caps)
              && context.swapchain == old(context.swapchain) + 1
              && renderTargets == UpdateRenderArea(Extent2D(parameters.width, parameters.height), currentDescription.size))
        && (!changed ==>
              && context.windowSize == old(context.windowSize) && context.swapchain == old(context.swapchain)
              && renderTargets == old(renderTargets))
    {
      if Extent2D(parameters.width, parameters.height) != context.windowSize && !IsMinimizedAsWritten(parameters) {
        context.RecreateSwapchain(parameters, surface.caps, surface.modes, surface.formats);
        renderTargets := UpdateRenderArea(Extent2D(parameters.width, parameters.height), currentDescription.size);
      }
    }

    /** `window_parameters_changed()`: the same, with the parameters the window reports now. */
    method WindowParametersChangedFromWindow(current: WindowParameters, surface: Surface)
      requires SurfaceValid(surface)
      modifies context, this`renderTargets
      ensures var changed := Extent2D(current.width, current.height) != old(context.windowSize) && !IsMinimizedAsWritten(current);
        && (changed ==> context.windowSize == ClampExtent(Extent2D(current.width, current.height), surface.caps)
                        && context.swapchain == old(context.swapchain) + 1)
        && (!changed ==> context.windowSize == old(context.windowSize) && context.swapchain == old(context.swapchain)
                         && renderTargets == old(renderTargets))
    {
      WindowParametersChanged(current, surface);
    }
  
    /** `free_frame_resources.back()` and `pop_back()`: the render thread takes a slot. */
    method PopFreeSlot() returns (s: nat)
      requires Valid() && queues.freeFrameResources != []
      modifies this`queues
      ensures old(RenderStateConsistent()) ==> RenderStateConsistent()
      ensures Valid() && s == Last(old(queues.freeFrameResources))
      ensures queues == old(queues).(freeFrameResources := DropLast(old(queues.freeFrameResources)),
                                     renderSlots := old(queues.renderSlots) + multiset{s})
    {
      s := Last(queues.freeFrameResources);
      TakeSlot(queues, |descriptions|, frameCount);
      queues := queues.(freeFrameResources := DropLast(queues.freeFrameResources), renderSlots := queues.renderSlots + multiset{s});
    }

    /**
     * The timed dequeue from the filled queue: it fails on an empty queue
     * and otherwise yields the front, which may be a null pointer.
     */
    method DequeueFilled() returns (image: Option<nat>)
      requires Valid()
      modifies this`queues
      ensures old(RenderStateConsistent()) ==> RenderStateConsistent()
      ensures Valid()
      ensures old(queues.filledQueue) == [] ==> image.None? && queues == old(queues)
      ensures old(queues.filledQueue) != [] ==>
        && image == old(queues.filledQueue)[0]
        && queues == old(queues).(filledQueue := old(queues.filledQueue)[1..],
                                  renderImages := old(queues.renderImages) + multiset(NonNull(image)))
    {
      if queues.filledQueue == [] {
        return None;
      }
      image := queues.filledQueue[0];
      TakeFilled(queues, |descriptions|, frameCount);
      queues := queues.(filledQueue := queues.filledQueue[1..], renderImages := queues.renderImages + multiset(NonNull(image)));
    }

    /** A slot the render thread took goes back to the free list. */
    method ReturnSlot(s: nat)
      requires Valid() && s in queues.renderSlots
      modifies this`queues
      ensures old(RenderStateConsistent()) ==> RenderStateConsistent()
      ensures Valid()
      ensures queues == old(queues).(renderSlots := old(queues.renderSlots) - multiset{s},
                                     freeFrameResources := old(queues.freeFrameResources) + [s])
    {
      RenderReturnsSlot(queues, s, |descriptions|, frameCount);
      queues := queues.(renderSlots := queues.renderSlots - multiset{s}, freeFrameResources := queues.freeFrameResources + [s]);
    }

    /** A slot the render thread took is dropped: nothing refers to it any more. */
    method DropSlot(s: nat)
      requires Valid() && s in queues.renderSlots
      modifies this`queues
      ensures old(RenderStateConsistent()) ==> RenderStateConsistent()
      ensures Valid()
      ensures queues == old(queues).(renderSlots := old(queues.renderSlots) - multiset{s},
                                     lostSlots := old(queues.lostSlots) + multiset{s})
    {
      RenderLosesSlot(queues, s, |descriptions|, frameCount);
      queues := queues.(renderSlots := queues.renderSlots - multiset{s}, lostSlots := queues.lostSlots + multiset{s});
    }

    /** An image the render thread took goes back through the available queue. */
    method ReturnImage(x: nat)
      requires Valid() && x in queues.renderImages
      modifies this`queues
      ensures Valid()
      ensures queues == old(queues).(renderImages := old(queues.renderImages) - multiset{x},
                                     availableQueue := old(queues.availableQueue) + [x])
    {
      RenderReturnsImage(queues, x, |descriptions|, frameCount);
      queues := queues.(renderImages := queues.renderImages - multiset{x}, availableQueue := queues.availableQueue + [x]);
    }

    /** An image the render thread took is dropped: nothing refers to it any more. */
    method DropImage(x: nat)
      requires Valid() && x in queues.renderImages
      modifies this`queues
      ensures Valid()
      ensures queues == old(queues).(renderImages := old(queues.renderImages) - multiset{x},
                                     lostImages := old(queues.lostImages) + multiset{x})
    {
      RenderLosesImage(queues, x, |descriptions|, frameCount);
      queues := queues.(renderImages := queues.renderImages - multiset{x}, lostImages := queues.lostImages + multiset{x});
    }

    /** `rendered_images.emplace`: the submitted frame waits for its fence. */
    method PushRendered(x: nat, s: nat)
      requires Valid() && x in queues.renderImages && s in queues.renderSlots
      modifies this`queues
      ensures Valid()
      ensures queues == old(queues).(renderedImages := old(queues.renderedImages) + [RenderedImage(x, s)],
                                     renderImages := old(queues.renderImages) - multiset{x},
                                     renderSlots := old(queues.renderSlots) - multiset{s})
    {
      Submit(queues, x, s, |descriptions|, frameCount);
      queues := queues.(renderedImages := queues.renderedImages + [RenderedImage(x, s)],
                        renderImages := queues.renderImages - multiset{x}, renderSlots := queues.renderSlots - multiset{s});
    }

    /**
     * A bail-out of the render thread holding an image and a slot: both go
     * back to the queues they came from when `handBack`, and are dropped
     * otherwise.
     */
    method ReleaseHeld(x: nat, s: nat, handBack: bool)
      requires Valid() && queues.renderImages == multiset{x} && queues.renderSlots == multiset{s}
      modifies this`queues
      ensures Valid() && Idle()
      ensures handBack ==>
        queues == old(queues).(renderImages := multiset{}, renderSlots := multiset{},
                               availableQueue := old(queues.availableQueue) + [x],
                               freeFrameResources := old(queues.freeFrameResources) + [s])
      ensures !handBack ==>
        queues == old(queues).(renderImages := multiset{}, renderSlots := multiset{},
                               lostImages := old(queues.lostImages) + multiset{x},
                               lostSlots := old(queues.lostSlots) + multiset{s})
      ensures queues == Released(old(queues), x, s, handBack)
    {
      if handBack {
        ReturnImage(x);
        ReturnSlot(s);
      } else {
        DropImage(x);
        DropSlot(s);
      }
    }

    /**
     * `display_queued_image`, with the bail-outs that hold a slot, or a slot
     * and an image, either dropping them (`asWritten`, as the source does)
     * or handing them back. Returns whether a frame was presented; an error
     * is a thrown exception.
     */
    method DisplayFrame(env: RenderEnv, asWritten: bool) returns (r: Result<bool>)
      requires Valid() && Idle() && EnvShaped(env, queues)
      requires !asWritten ==> RenderStateConsistent()
      modifies context, this`queues, this`currentDescription, this`formatConversionEnabled, this`yCbCrConversion,
               this`convertedImages, this`poolUse, this`renderTargets
      ensures Valid() && Idle()
      ensures !asWritten ==> RenderStateConsistent()
      ensures FrameOutcome(env, old(queues), queues, r, asWritten)
    {
      if IsMinimizedAsWritten(env.window) {
        MinimizedFrame(env, queues, asWritten);
        DiscardFilledImage();
        return Ok(false);
      }
      var failed := ReclaimRenderedImages(env.fences);
      if failed.Some? {
        FenceFailureFrame(env, old(queues), failed.value, asWritten);
        return Err(failed.value);
      }
      r := DisplayWithSlot(env, asWritten);
      ReclaimedFrame(env, old(queues), queues, r, asWritten);
    }

    /**
     * The part of `display_queued_image` after the reclaim loop: with no
     * free slot the frame is skipped; otherwise it takes a slot and waits
     * for a filled image, and a timeout or a null pointer ends the frame
     * holding the slot.
     */
    method DisplayWithSlot(env: RenderEnv, asWritten: bool) returns (r: Result<bool>)
      requires Valid() && Idle()
      requires |env.acquires| == MAX_SWAPCHAIN_RECREATIONS + 1 && |env.retryWindows| == MAX_SWAPCHAIN_RECREATIONS
      requires SurfaceValid(env.surface)
      requires !asWritten ==> RenderStateConsistent()
      modifies context, this`queues, this`currentDescription, this`formatConversionEnabled, this`yCbCrConversion,
               this`convertedImages, this`poolUse, this`renderTargets
      ensures Valid() && Idle()
      ensures !asWritten ==> RenderStateConsistent()
      ensures SlotOutcome(env, old(queues), queues, r, asWritten)
    {
      if queues.freeFrameResources == [] {
        SlotSkipped(env, queues, asWritten);
        return Ok(false);
      }
      var slot := PopFreeSlot();
      var dequeued := DequeueFilled();
      if dequeued.None? {
        if asWritten {
          DropSlot(slot);
        } else {
          ReturnSlot(slot);
          LastSplit(old(queues.freeFrameResources));
        }
        assert queues == SlotQueues(env, old(queues), asWritten);
        SlotStalled(env, old(queues), queues, asWritten);
        return Ok(false);
      }
      var image := dequeued.value;
      assert queues == Held(old(queues), image);
      r := PresentHeldFrame(image, slot, env, asWritten);
      SlotHeldFrame(env, old(queues), queues, r, asWritten);
    }

    /**
     * `reconfigure` when the held image's description differs from the
     * current one: afterwards the render state is set up for that image.
     */
    method PrepareRenderState(image: nat, asWritten: bool)
      requires frameCount > 0 && image < |descriptions|
      requires !asWritten ==> RenderStateConsistent()
      modifies this`currentDescription, this`formatConversionEnabled, this`yCbCrConversion,
               this`convertedImages, this`poolUse, this`renderTargets
      ensures currentDescription == descriptions[image]
      ensures !asWritten ==> RenderStateConsistent()
    {
      if descriptions[image] != currentDescription {
        if asWritten {
          ReconfigureAsWritten(descriptions[image]);
        } else {
          Reconfigure(descriptions[image]);
        }
      }
    }

    /**
     * The end of `display_queued_image`: an acquired swapchain image, a
     * successful submission and a present the source tolerates queue the
     * frame behind its fence; any other outcome gives up the image and the
     * slot, handing them back only after a minimized window (and not
     * `asWritten`). A failed submission or present throws holding both, so
     * they are lost.
     */
    method FinishFrame(image: nat, slot: nat, acquisition: Acquisition, submit: VkResult, present: VkResult,
                       asWritten: bool) returns (r: Result<bool>)
      requires Valid() && queues.renderImages == multiset{image} && queues.renderSlots == multiset{slot}
      modifies this`queues
      ensures Valid() && Idle()
      ensures r == Ok(true) <==> acquisition.Acquired? && FrameShown(submit, present)
      ensures old(RenderStateConsistent()) ==> RenderStateConsistent()
      ensures r.Err? <==> acquisition.AcquireFailed? || (acquisition.Acquired? && !FrameShown(submit, present))
      ensures acquisition.Acquired? && submit != Success ==> r == Err(SUBMIT_FAILED)
      ensures acquisition.Acquired? && submit == Success && !PresentTolerated(present) ==> r == Err(PRESENT_FAILED)
      ensures r == Ok(true) ==>
        queues == old(queues).(renderedImages := old(queues.renderedImages) + [RenderedImage(image, slot)],
                               renderImages := multiset{}, renderSlots := multiset{})
      ensures r.Err? ==>
        queues == old(queues).(renderImages := multiset{}, renderSlots := multiset{},
                               lostImages := old(queues.lostImages) + multiset{image},
                               lostSlots := old(queues.lostSlots) + multiset{slot})
      ensures queues == FrameEnd(old(queues), image, slot, acquisition, submit, present, asWritten)
      ensures !asWritten && r.Ok? ==> queues.lostImages == old(queues.lostImages) && queues.lostSlots == old(queues.lostSlots)
    {
      if acquisition.Acquired? && FrameShown(submit, present) {
        PushRendered(image, slot);
        assert queues == Rendered(old(queues), image, slot);
        return Ok(true);
      }
      FrameEndReleases(queues, image, slot, acquisition, submit, present, asWritten);
      ReleaseHeld(image, slot, !asWritten && acquisition.MinimizedWhileRetrying?);
      r := match acquisition
        case MinimizedWhileRetrying => Ok(false)
        case AcquireFailed(message) => Err(message)
        case Acquired(_) => if submit != Success then Err(SUBMIT_FAILED) else Err(PRESENT_FAILED);
    }

    /**
     * The part of `display_queued_image` once the render thread holds an
     * image and a slot: reconfigure for a new description, acquire a
     * swapchain image, present, and queue the frame behind its fence.
     */
    method PresentHeldFrame(image: nat, slot: nat, env: RenderEnv, asWritten: bool) returns (r: Result<bool>)
      requires Valid() && queues.renderImages == multiset{image} && queues.renderSlots == multiset{slot}
      requires |env.acquires| == MAX_SWAPCHAIN_RECREATIONS + 1 && |env.retryWindows| == MAX_SWAPCHAIN_RECREATIONS
      requires SurfaceValid(env.surface)
      requires !asWritten ==> RenderStateConsistent()
      modifies context, this`queues, this`currentDescription, this`formatConversionEnabled, this`yCbCrConversion,
               this`convertedImages, this`poolUse, this`renderTargets
      ensures Valid() && Idle()
      ensures !asWritten ==> RenderStateConsistent()
      ensures var o := AcquireOutcome(env.acquires, env.retryWindows, 0);
        && (r == Ok(true) <==> o.Acquired? && FrameShown(env.submit, env.present))
        && (r.Err? <==> o.AcquireFailed? || (o.Acquired? && !FrameShown(env.submit, env.present)))
      ensures r == Ok(true) ==>
        queues == old(queues).(renderedImages := old(queues.renderedImages) + [RenderedImage(image, slot)],
                               renderImages := multiset{}, renderSlots := multiset{})
      ensures r.Err? ==>
        queues == old(queues).(renderImages := multiset{}, renderSlots := multiset{},
                               lostImages := old(queues.lostImages) + multiset{image},
                               lostSlots := old(queues.lostSlots) + multiset{slot})
      ensures AcquireOutcome(env.acquires, env.retryWindows, 0).MinimizedWhileRetrying? ==>
        queues == Released(DiscardFront(old(queues)), image, slot, !asWritten)
      ensures !asWritten && r.Ok? ==> queues.lostImages == old(queues.lostImages) && queues.lostSlots == old(queues.lostSlots)
      ensures queues == HeldQueues(old(queues), image, slot, AcquireOutcome(env.acquires, env.retryWindows, 0),
                                   env.submit, env.present, asWritten)
    {
      HeldImageExists(queues, image, |descriptions|, frameCount);
      PrepareRenderState(image, asWritten);
      var acquisition := AcquireSwapchainImage(env.acquires, env.retryWindows, env.surface);
      r := FinishFrame(image, slot, acquisition, env.submit, env.present, asWritten);
    }
  }
}
