/**
 * The older presentation engine, `vulkan_display` of `vulkan_display.cpp`
 * and `vulkan_display.h`.
 *
 * A fixed pool of `transfer_image_count` transfer images, named by id, is
 * handed between the producer thread (`acquire_image`, `queue_image`,
 * `discard_image`) and the render thread (`display_queued_image`). Unlike
 * the newer engine there are no frame slots and no rendered queue: a
 * presented image goes straight back to the available queue with its
 * `fence_set` flag raised, and it is the producer that waits for the fence
 * before it writes into the image again.
 *
 * The context's swapchain state (window size, vsync, generation) is kept
 * as fields of the display. Every answer of the GPU, the swapchain or the
 * window is an argument: the fence wait result, acquire results, window
 * parameters, the surface and the present result.
 */
module DisplayLegacy {
  import opened Wrappers
  import opened VkTypes
  import opened RenderArea
  import VulkanContext
  import VulkanContextLegacy
  import Display

  /** The description of a transfer image that has not been created yet. */
  const NEW_IMAGE_DESCRIPTION: ImageDescription := ImageDescription(Extent2D(0, 0), FORMAT_UNDEFINED)

  type WindowParameters = VulkanContextLegacy.WindowParameters

  /** The size part of the older window parameters, as the newer context reads it. */
  function SizeOf(p: WindowParameters): (s: VulkanContext.WindowParameters)
    ensures s.width == p.width && s.height == p.height
  {
    VulkanContext.WindowParameters(p.width, p.height)
  }

  function SizesOf(ps: seq<WindowParameters>): (s: seq<VulkanContext.WindowParameters>)
    ensures |s| == |ps| && forall i :: 0 <= i < |ps| ==> s[i] == SizeOf(ps[i])
  {
    seq(|ps|, i requires 0 <= i < |ps| => SizeOf(ps[i]))
  }

  /** The test `width * height == 0` of the older display, with the product taken modulo 2^32. */
  predicate Minimized(p: WindowParameters)
  {
    VulkanContext.IsMinimizedAsWritten(SizeOf(p))
  }

  /** What the surface reports; its extents are `uint32_t`. */
  predicate SurfaceFits(s: Display.Surface)
  {
    Display.SurfaceValid(s) && IsU32(s.caps.maxImageExtent.width) && IsU32(s.caps.maxImageExtent.height)
  }

  /** No null pointer waits in a queue of image pointers. */
  predicate NoNulls(s: seq<Option<nat>>)
  {
    forall i :: 0 <= i < |s| ==> s[i].Some?
  }

  // ---------------------------------------------------------------------
  // Where the transfer images are
  // ---------------------------------------------------------------------

  /**
   * The queues that hand transfer images between the two threads, and the
   * places only the model names: each thread's hands, and the images that
   * nothing refers to any more.
   */
  datatype Queues = Queues(
    /** `available_images`, local to the producer; its back is the last element. */
    availableImages: seq<nat>,
    /** `available_img_queue`; `None` is a null pointer. */
    availableQueue: seq<Option<nat>>,
    /** `filled_img_queue`; `None` is an empty `image`, as queued at the end of a stream. */
    filledQueue: seq<Option<nat>>,
    /** Images the producer has acquired and not yet queued or discarded. */
    providerImages: multiset<nat>,
    /** The image the render thread is presenting. */
    renderImages: multiset<nat>,
    lostImages: multiset<nat>)

  ghost function Places(q: Queues): (p: seq<multiset<nat>>)
    ensures |p| == 6
  {
    [multiset(q.availableImages), multiset(Display.FilledIds(q.availableQueue)),
     multiset(Display.FilledIds(q.filledQueue)), q.providerImages, q.renderImages, q.lostImages]
  }

  /** Image ids `0..imageCount-1`, each in exactly one place. */
  ghost predicate Accounted(q: Queues, imageCount: nat)
  {
    Display.Total(Places(q)) == multiset(Display.Range(imageCount))
  }

  /** The places, added up. */
  lemma PlacesTotal(q: Queues)
    ensures Display.Total(Places(q)) == multiset(q.availableImages) + multiset(Display.FilledIds(q.availableQueue))
      + multiset(Display.FilledIds(q.filledQueue)) + q.providerImages + q.renderImages + q.lostImages
  {
    var p := Places(q);
    var none: seq<multiset<nat>> := [];
    assert p[6..] == none;
    assert Display.Total(p[5..]) == p[5] + Display.Total(p[6..]);
    assert Display.Total(p[4..]) == p[4] + Display.Total(p[5..]);
    assert Display.Total(p[3..]) == p[3] + Display.Total(p[4..]);
    assert Display.Total(p[2..]) == p[2] + Display.Total(p[3..]);
    assert Display.Total(p[1..]) == p[1] + Display.Total(p[2..]);
  }

  lemma Totals(q: Queues, q': Queues)
    ensures Display.Total(Places(q)) == multiset(q.availableImages) + multiset(Display.FilledIds(q.availableQueue))
      + multiset(Display.FilledIds(q.filledQueue)) + q.providerImages + q.renderImages + q.lostImages
    ensures Display.Total(Places(q')) == multiset(q'.availableImages) + multiset(Display.FilledIds(q'.availableQueue))
      + multiset(Display.FilledIds(q'.filledQueue)) + q'.providerImages + q'.renderImages + q'.lostImages
  {
    PlacesTotal(q);
    PlacesTotal(q');
  }

  /** `init`: images `0..n-1`, all in the producer's list, in id order. */
  function InitialQueues(n: nat): (q: Queues)
    ensures Accounted(q, n) && NoNulls(q.availableQueue)
  {
    var q := Queues(Display.Range(n), [], [], multiset{}, multiset{}, multiset{});
    Totals(q, q);
    q
  }

  /** The front of a queue of pointers, split off. */
  lemma FrontIds(s: seq<Option<nat>>)
    requires s != []
    ensures Display.FilledIds(s) == Display.NonNull(s[0]) + Display.FilledIds(s[1..])
  {
  }

  // Producer-side moves

  lemma TakeFromList(q: Queues, n: nat)
    requires q.availableImages != [] && Accounted(q, n)
    ensures Accounted(q.(availableImages := Display.DropLast(q.availableImages),
                         providerImages := q.providerImages + multiset{Display.Last(q.availableImages)}), n)
    ensures Display.Last(q.availableImages) < n
  {
    var x := Display.Last(q.availableImages);
    Display.LastSplit(q.availableImages);
    Totals(q, q.(availableImages := Display.DropLast(q.availableImages), providerImages := q.providerImages + multiset{x}));
    Display.RangeMembers(n, x);
  }

  /** The producer takes the front of the available queue (a null pointer leaves it empty-handed). */
  lemma TakeFromQueue(q: Queues, n: nat)
    requires q.availableQueue != [] && Accounted(q, n)
    ensures Accounted(q.(availableQueue := q.availableQueue[1..],
                         providerImages := q.providerImages + multiset(Display.NonNull(q.availableQueue[0]))), n)
    ensures q.availableQueue[0].Some? ==> q.availableQueue[0].value < n
  {
    var front := q.availableQueue[0];
    FrontIds(q.availableQueue);
    Totals(q, q.(availableQueue := q.availableQueue[1..], providerImages := q.providerImages + multiset(Display.NonNull(front))));
    if front.Some? {
      Display.RangeMembers(n, front.value);
    }
  }

  /** `queue_image`: the producer's image (or an empty image) joins the filled queue. */
  lemma ProviderQueues(q: Queues, p: Option<nat>, n: nat)
    requires Accounted(q, n) && (p.Some? ==> p.value in q.providerImages)
    ensures Accounted(q.(filledQueue := q.filledQueue + [p],
                         providerImages := q.providerImages - multiset(Display.NonNull(p))), n)
  {
    Display.FilledIdsAppend(q.filledQueue, p);
    Totals(q, q.(filledQueue := q.filledQueue + [p], providerImages := q.providerImages - multiset(Display.NonNull(p))));
  }

  /** `discard_image`: the producer's image goes back through the available queue. */
  lemma ProviderDiscards(q: Queues, x: nat, n: nat)
    requires x in q.providerImages && Accounted(q, n)
    ensures Accounted(q.(availableQueue := q.availableQueue + [Some(x)], providerImages := q.providerImages - multiset{x}), n)
  {
    Display.FilledIdsAppend(q.availableQueue, Some(x));
    Totals(q, q.(availableQueue := q.availableQueue + [Some(x)], providerImages := q.providerImages - multiset{x}));
  }

  lemma ProviderLoses(q: Queues, x: nat, n: nat)
    requires x in q.providerImages && Accounted(q, n)
    ensures Accounted(q.(providerImages := q.providerImages - multiset{x}, lostImages := q.lostImages + multiset{x}), n)
  {
    Totals(q, q.(providerImages := q.providerImages - multiset{x}, lostImages := q.lostImages + multiset{x}));
  }

  // Render-side moves

  /** The null check of the minimized short cut: a filled image, not a null pointer, goes back. */
  function DiscardFront(q: Queues): (r: Queues)
  {
    if q.filledQueue == [] then q
    else q.(filledQueue := q.filledQueue[1..],
            availableQueue := q.availableQueue + (if q.filledQueue[0].Some? then [q.filledQueue[0]] else []))
  }

  /** The discard of the retry loop, which forwards whatever pointer it dequeued, null or not. */
  function DiscardFrontAsWritten(q: Queues): (r: Queues)
  {
    if q.filledQueue == [] then q
    else q.(filledQueue := q.filledQueue[1..], availableQueue := q.availableQueue + [q.filledQueue[0]])
  }

  lemma DiscardAccounted(q: Queues, n: nat)
    requires Accounted(q, n)
    ensures Accounted(DiscardFront(q), n)
  {
    if q.filledQueue != [] {
      var front := q.filledQueue[0];
      FrontIds(q.filledQueue);
      if front.Some? {
        Display.FilledIdsAppend(q.availableQueue, front);
      } else {
        assert DiscardFront(q).availableQueue == q.availableQueue;
      }
      Totals(q, DiscardFront(q));
    }
  }

  lemma DiscardAsWrittenAccounted(q: Queues, n: nat)
    requires Accounted(q, n)
    ensures Accounted(DiscardFrontAsWritten(q), n)
  {
    if q.filledQueue != [] {
      FrontIds(q.filledQueue);
      Display.FilledIdsAppend(q.availableQueue, q.filledQueue[0]);
      Totals(q, DiscardFrontAsWritten(q));
    }
  }

  /** The discard with the null check never puts a null pointer in the available queue. */
  lemma DiscardFrontKeepsNoNulls(q: Queues)
    requires NoNulls(q.availableQueue)
    ensures NoNulls(DiscardFront(q).availableQueue)
  {
  }

  /** The render thread takes the front of the filled queue (a null pointer leaves it empty-handed). */
  lemma TakeFilled(q: Queues, n: nat)
    requires q.filledQueue != [] && Accounted(q, n)
    ensures Accounted(q.(filledQueue := q.filledQueue[1..],
                         renderImages := q.renderImages + multiset(Display.NonNull(q.filledQueue[0]))), n)
  {
    var front := q.filledQueue[0];
    FrontIds(q.filledQueue);
    Totals(q, q.(filledQueue := q.filledQueue[1..], renderImages := q.renderImages + multiset(Display.NonNull(front))));
  }

  lemma RenderReturns(q: Queues, x: nat, n: nat)
    requires x in q.renderImages && Accounted(q, n)
    ensures Accounted(q.(renderImages := q.renderImages - multiset{x}, availableQueue := q.availableQueue + [Some(x)]), n)
  {
    Display.FilledIdsAppend(q.availableQueue, Some(x));
    Totals(q, q.(renderImages := q.renderImages - multiset{x}, availableQueue := q.availableQueue + [Some(x)]));
  }

  lemma RenderLoses(q: Queues, x: nat, n: nat)
    requires x in q.renderImages && Accounted(q, n)
    ensures Accounted(q.(renderImages := q.renderImages - multiset{x}, lostImages := q.lostImages + multiset{x}), n)
  {
    Totals(q, q.(renderImages := q.renderImages - multiset{x}, lostImages := q.lostImages + multiset{x}));
  }

  /** An image in either thread's hands is one of the transfer images. */
  lemma HeldImageExists(q: Queues, x: nat, n: nat)
    requires Accounted(q, n) && (x in q.providerImages || x in q.renderImages)
    ensures x < n
  {
    PlacesTotal(q);
    Display.RangeMembers(n, x);
  }

  /**
   * The pool never grows: once every transfer image is lost, neither the
   * producer's list nor the available queue holds one, so `acquire_image`
   * waits on an available queue that nothing will ever fill.
   */
  lemma ProducerStarvesOnceAllLost(q: Queues, n: nat)
    requires Accounted(q, n) && |q.lostImages| == n
    ensures q.availableImages == [] && Display.FilledIds(q.availableQueue) == []
    ensures q.providerImages == multiset{} && q.renderImages == multiset{}
  {
    PlacesTotal(q);
    assert |multiset(Display.Range(n))| == n;
    assert |multiset(q.availableImages)| == 0;
    assert |multiset(Display.FilledIds(q.availableQueue))| == 0;
  }

  /**
   * The retry loop can put a null pointer into the available queue: an
   * empty image queued at the end of a stream and dequeued there is
   * forwarded as it is, and the producer's next `acquire_transfer_image`
   * taking it would dereference null. The discard with the null check
   * keeps the queue free of null pointers.
   */
  lemma NullReachesAvailableQueue()
    ensures var q := Queues([], [], [None], multiset{}, multiset{}, multiset{});
      && Accounted(q, 0) && NoNulls(q.availableQueue)
      && DiscardFrontAsWritten(q).availableQueue == [None]
      && !NoNulls(DiscardFrontAsWritten(q).availableQueue)
      && NoNulls(DiscardFront(q).availableQueue)
  {
    var q := Queues([], [], [None], multiset{}, multiset{}, multiset{});
    Totals(q, q);
  }

  // ---------------------------------------------------------------------
  // Answers of the environment
  // ---------------------------------------------------------------------

  /**
   * Everything `display_queued_image` learns from outside: the window
   * parameters it reads first, the successive results of
   * `acquire_next_swapchain_image`, the window parameters read on each
   * retry, the surface, the result of the queue submission and the present
   * result.
   */
  datatype RenderEnv = RenderEnv(
    window: WindowParameters,
    acquires: seq<Result<U32>>,
    retryWindows: seq<WindowParameters>,
    surface: Display.Surface,
    submit: VkResult,
    present: VkResult)

  predicate EnvShaped(env: RenderEnv)
  {
    && |env.acquires| == Display.MAX_SWAPCHAIN_RECREATIONS + 1
    && |env.retryWindows| == Display.MAX_SWAPCHAIN_RECREATIONS
    && SurfaceFits(env.surface)
  }

  /** The swapchain acquisition of a frame: the same rule as the newer engine's, read on the window sizes. */
  function Acquisition(env: RenderEnv): Display.Acquisition
    requires EnvShaped(env)
  {
    Display.AcquireOutcome(env.acquires, SizesOf(env.retryWindows), 0)
  }

  /** A filled image (and not a null pointer) waits at the front of the filled queue. */
  predicate HasFrame(q: Queues)
  {
    q.filledQueue != [] && q.filledQueue[0].Some?
  }

  /**
   * The retry loop finds the window minimized while the render thread
   * holds the image `x`: the front of the filled queue goes to the
   * available queue (without the null check when `asWritten`), and `x` is
   * handed back too or, as the source has it, lost.
   */
  function MinimizedRetry(q: Queues, x: nat, asWritten: bool): Queues
  {
    if asWritten then
      var d := DiscardFrontAsWritten(q);
      d.(renderImages := multiset{}, lostImages := d.lostImages + multiset{x})
    else
      var d := DiscardFront(q);
      d.(renderImages := multiset{}, availableQueue := d.availableQueue + [Some(x)])
  }

  /**
   * What the rest of `display_queued_image` does once the render thread
   * holds image `x`, from the queues `q` to `q'`: the frame is shown
   * exactly when a swapchain image is acquired, the submission succeeds and
   * the present result is tolerated, and then the image goes straight to
   * the available queue. A failure returns holding the image, which is
   * lost. Handing the image back after a minimized retry (`!asWritten`) loses
   * nothing and puts no null pointer in the available queue; the source
   * (`asWritten`) loses the image.
   */
  ghost predicate HeldOutcome(env: RenderEnv, x: nat, q: Queues, q': Queues, r: Result<bool>, asWritten: bool)
    requires EnvShaped(env)
  {
    var o := Acquisition(env);
    && (r == Ok(true) <==> o.Acquired? && Display.FrameShown(env.submit, env.present))
    && (r.Err? <==> o.AcquireFailed? || (o.Acquired? && !Display.FrameShown(env.submit, env.present)))
    && (o.Acquired? && env.submit != Success ==> r == Err(Display.SUBMIT_FAILED))
    && (r == Ok(true) ==> q' == q.(renderImages := multiset{}, availableQueue := q.availableQueue + [Some(x)]))
    && (r.Err? ==> q' == q.(renderImages := multiset{}, lostImages := q.lostImages + multiset{x}))
    && (!asWritten && r.Ok? ==> q'.lostImages == q.lostImages)
    && (!asWritten && NoNulls(q.availableQueue) ==> NoNulls(q'.availableQueue))
    && (asWritten && o.MinimizedWhileRetrying? ==> r == Ok(false) && q'.lostImages == q.lostImages + multiset{x})
    && (o.MinimizedWhileRetrying? ==> q' == MinimizedRetry(q, x, asWritten))
  }

  /**
   * What one call of `display_queued_image` does, from the queues `q` to
   * `q'` with result `r`. A minimized window moves at most one filled
   * image (not a null pointer) to the available queue and shows nothing.
   * Otherwise a frame is shown exactly when a filled image waits, a
   * swapchain image is acquired, the submission succeeds and the present
   * result is tolerated; the shown image leaves the filled queue for the
   * available queue, and a failure loses it. Without
   * the source's retry-loop discard (`!asWritten`) no image is lost and
   * no null pointer reaches the available queue; with it (`asWritten`) a
   * window minimized during the retries loses the image being shown.
   * An empty filled queue, or a null pointer at its front, ends the call
   * with the queue consumed and nothing else changed.
   */
  ghost predicate FrameOutcome(env: RenderEnv, q: Queues, q': Queues, r: Result<bool>, asWritten: bool)
    requires EnvShaped(env)
  {
    var o := Acquisition(env);
    var shows := !Minimized(env.window) && HasFrame(q);
    && (Minimized(env.window) ==> r == Ok(false) && q' == DiscardFront(q))
    && (r == Ok(true) <==> shows && o.Acquired? && Display.FrameShown(env.submit, env.present))
    && (r.Err? <==> shows && (o.AcquireFailed? || (o.Acquired? && !Display.FrameShown(env.submit, env.present))))
    && (r == Ok(true) ==>
          q' == q.(filledQueue := q.filledQueue[1..], availableQueue := q.availableQueue + [q.filledQueue[0]]))
    && (r.Err? ==>
          q' == q.(filledQueue := q.filledQueue[1..], lostImages := q.lostImages + multiset{q.filledQueue[0].value}))
    && (!asWritten && r.Ok? ==> q'.lostImages == q.lostImages)
    && (!asWritten && NoNulls(q.availableQueue) ==> NoNulls(q'.availableQueue))
    && (asWritten && shows && o.MinimizedWhileRetrying? ==>
          r == Ok(false) && q'.lostImages == q.lostImages + multiset{q.filledQueue[0].value})
    && (!Minimized(env.window) && !HasFrame(q) ==>
          r == Ok(false) && q' == if q.filledQueue == [] then q else q.(filledQueue := q.filledQueue[1..]))
    && (shows && o.MinimizedWhileRetrying? ==>
          q' == MinimizedRetry(q.(filledQueue := q.filledQueue[1..]), q.filledQueue[0].value, asWritten))
  }

  lemma MinimizedFrame(env: RenderEnv, q: Queues, asWritten: bool)
    requires EnvShaped(env) && Minimized(env.window)
    ensures FrameOutcome(env, q, DiscardFront(q), Ok(false), asWritten)
  {
    if NoNulls(q.availableQueue) {
      DiscardFrontKeepsNoNulls(q);
    }
  }

  /** The filled queue is empty, or its front is a null pointer: the call consumes it and shows nothing. */
  lemma NoFrame(env: RenderEnv, q: Queues, q': Queues, asWritten: bool)
    requires EnvShaped(env) && !Minimized(env.window) && !HasFrame(q)
    requires q' == if q.filledQueue == [] then q else q.(filledQueue := q.filledQueue[1..])
    ensures FrameOutcome(env, q, q', Ok(false), asWritten)
  {
  }

  /** The creation loop of `init`: `n` images with the new-image description, no fence set, all in the producer's list. */
  method CreateImages(n: nat) returns (images: seq<ImageDescription>, fences: seq<bool>, available: seq<nat>)
    ensures images == seq(n, _ => NEW_IMAGE_DESCRIPTION) && fences == seq(n, _ => false)
    ensures available == Display.Range(n)
  {
    images, fences, available := [], [], [];
    var i := 0;
    while i < n
      invariant i <= n
      invariant images == seq(i, _ => NEW_IMAGE_DESCRIPTION) && fences == seq(i, _ => false)
      invariant available == Display.Range(i)
    {
      images := images + [NEW_IMAGE_DESCRIPTION];
      fences := fences + [false];
      available := available + [i];
      i := i + 1;
    }
  }

  /** Holding the front filled image, the call does what `HeldOutcome` says. */
  lemma HeldFrame(env: RenderEnv, q: Queues, held: Queues, q': Queues, r: Result<bool>, asWritten: bool)
    requires EnvShaped(env) && !Minimized(env.window) && HasFrame(q) && q.renderImages == multiset{}
    requires held == q.(filledQueue := q.filledQueue[1..], renderImages := multiset{q.filledQueue[0].value})
    requires HeldOutcome(env, q.filledQueue[0].value, held, q', r, asWritten)
    ensures FrameOutcome(env, q, q', r, asWritten)
  {
  }

  // ---------------------------------------------------------------------
  // The display
  // ---------------------------------------------------------------------

  class LegacyDisplay {
    /** `transfer_image_count`: the pool never grows. */
    const imageCount: nat
    const yCbCrSupported: bool
    const vulkanVersion: nat
    /** The present mode `init` asks the context for. */
    const presentMode: PresentMode

    /** `transfer_images`: the description and the `fence_set` flag of each image, by id. */
    var descriptions: seq<ImageDescription>
    var fenceSet: seq<bool>
    var queues: Queues
    /** Images submitted for rendering whose fence nobody has waited for since. */
    ghost var inFlight: set<nat>
    var currentDescription: ImageDescription
    /** The format the sampler, descriptor set layout and pipeline were last built for. */
    var pipelineFormat: Format
    var renderTargets: Option<RenderTargets>
    /** The context's `window_size`, `vsync` and swapchain generation. */
    var windowSize: Extent2D
    var vsync: bool
    var swapchain: nat
    var destroyed: bool

    /**
     * Every image is in exactly one place, and an image whose rendering
     * may still be in progress has its `fence_set` flag raised.
     */
    ghost predicate Valid()
      reads this`queues, this`descriptions, this`fenceSet, this`inFlight, this`windowSize
    {
      && |descriptions| == imageCount && |fenceSet| == imageCount
      && Accounted(queues, imageCount)
      && (forall x :: x in inFlight ==> x < |fenceSet| && fenceSet[x])
      && IsU32(windowSize.width) && IsU32(windowSize.height)
    }

    /** Between calls the render thread holds no image. */
    ghost predicate Idle()
      reads this`queues
    {
      queues.renderImages == multiset{}
    }

    /** The pipeline objects were built for the current description's format. */
    ghost predicate RenderStateConsistent()
      reads this`pipelineFormat, this`currentDescription
    {
      pipelineFormat == currentDescription.format
    }

    /** `get_window_parameters` of the context: the swapchain size and the vsync flag. */
    function ContextWindowParameters(): (p: WindowParameters)
      reads this`windowSize, this`vsync
      requires IsU32(windowSize.width) && IsU32(windowSize.height)
      ensures p.width == windowSize.width && p.height == windowSize.height && p.vsync == vsync
    {
      VulkanContextLegacy.GetWindowParameters(windowSize, vsync)
    }

    /**
     * `init`: the context is made with the window's parameters and the
     * present mode `get_present_mode` picks; images `0..n-1` are created,
     * none of them submitted, all in the producer's list.
     */
    constructor (n: nat, window: WindowParameters, surface: Display.Surface, vsyncEnabled: bool,
                 tearingPermitted: bool, yCbCr: bool, version: nat)
      requires SurfaceFits(surface)
      ensures Valid() && Idle() && RenderStateConsistent() && NoNulls(queues.availableQueue)
      ensures imageCount == n && yCbCrSupported == yCbCr && vulkanVersion == version
      ensures presentMode == Display.GetPresentMode(vsyncEnabled, tearingPermitted)
      ensures descriptions == seq(n, _ => NEW_IMAGE_DESCRIPTION) && fenceSet == seq(n, _ => false)
      ensures queues == InitialQueues(n) && inFlight == {}
      ensures windowSize == VulkanContext.ClampExtent(Extent2D(window.width, window.height), surface.caps)
      ensures vsync == window.vsync && swapchain == 1
      ensures currentDescription == NEW_IMAGE_DESCRIPTION && renderTargets.None? && !destroyed
    {
      var images, fences, available := CreateImages(n);
      imageCount := n;
      yCbCrSupported := yCbCr;
      vulkanVersion := version;
      presentMode := Display.GetPresentMode(vsyncEnabled, tearingPermitted);
      descriptions := images;
      fenceSet := fences;
      var initial := Queues(available, [], [], multiset{}, multiset{}, multiset{});
      assert initial == InitialQueues(n);
      queues := initial;
      inFlight := {};
      currentDescription := NEW_IMAGE_DESCRIPTION;
      pipelineFormat := FORMAT_UNDEFINED;
      renderTargets := None;
      windowSize := VulkanContext.ClampExtent(Extent2D(window.width, window.height), surface.caps);
      vsync := window.vsync;
      swapchain := 1;
      destroyed := false;
    }

    /** `destroy`: releases everything once. */
    method Destroy()
      modifies this`destroyed
      ensures destroyed
    {
      if !destroyed {
        destroyed := true;
      }
    }

    /** The destructor: `destroy` runs only if it has not run yet. */
    method Destructor() returns (destroyedNow: bool)
      modifies this`destroyed
      ensures destroyed && destroyedNow == !old(destroyed)
    {
      destroyedNow := !destroyed;
      if !destroyed {
        Destroy();
      }
    }

    /**
     * `acquire_transfer_image`: the back of the producer's list, else the
     * front of the available queue, which the producer waits for. A null
     * pointer taken from the queue is dereferenced (`return *result`), so
     * then the call has no defined result.
     */
    method AcquireTransferImage() returns (a: Answer<nat>)
      requires Valid()
      requires queues.availableImages != [] || queues.availableQueue != []
      modifies this`queues
      ensures Valid()
      ensures a == TakenImage(old(queues), imageCount) && queues == AfterTake(old(queues))
      ensures a.Answered? ==> a.value < imageCount && queues.providerImages == old(queues.providerImages) + multiset{a.value}
      ensures old(queues.availableImages) != [] ==>
        && a == Answered(Display.Last(old(queues.availableImages)))
        && queues == old(queues).(availableImages := Display.DropLast(old(queues.availableImages)),
                                  providerImages := old(queues.providerImages) + multiset{a.value})
      ensures old(queues.availableImages) == [] ==>
        queues == old(queues).(availableQueue := old(queues.availableQueue)[1..],
                               providerImages := old(queues.providerImages) + multiset(Display.NonNull(old(queues.availableQueue)[0])))
      ensures old(queues.availableImages) == [] ==>
        (a == NullDereference <==> old(queues.availableQueue)[0].None?)
      ensures NoNulls(old(queues.availableQueue)) ==> NoNulls(queues.availableQueue)
    {
      if queues.availableImages != [] {
        var id := Display.Last(queues.availableImages);
        TakeFromList(queues, imageCount);
        queues := queues.(availableImages := Display.DropLast(queues.availableImages),
                          providerImages := queues.providerImages + multiset{id});
        a := Answered(id);
      } else {
        var front := queues.availableQueue[0];
        TakeFromQueue(queues, imageCount);
        queues := queues.(availableQueue := queues.availableQueue[1..],
                          providerImages := queues.providerImages + multiset(Display.NonNull(front)));
        a := if front.Some? then Answered(front.value) else NullDereference;
      }
    }

    /**
     * `acquire_image`: refuses a Y'CbCr format the device cannot sample,
     * then takes a transfer image, waits for its fence if a submission
     * used it (`fenceWait` is the result of that wait), and recreates it
     * if its description differs from the request (`createError` is the
     * error `transfer_image::create` throws, if any).
     */
    method AcquireImage(description: ImageDescription, fenceWait: VkResult, createError: Option<string>)
      returns (r: Answer<Result<nat>>)
      requires Valid()
      requires description.size.width > 0 && description.size.height > 0 && description.format != FORMAT_UNDEFINED
      requires queues.availableImages != [] || queues.availableQueue != []
      modifies this`queues, this`descriptions, this`inFlight
      ensures Valid() && fenceSet == old(fenceSet)
      ensures NoNulls(old(queues.availableQueue)) ==> NoNulls(queues.availableQueue)
      ensures !yCbCrSupported && IsYCbCrFormat(description.format) ==>
        r == Answered(Err(Display.YCbCrMessage(vulkanVersion))) && queues == old(queues) && descriptions == old(descriptions)
      ensures yCbCrSupported || !IsYCbCrFormat(description.format) ==>
        DescribedOutcome(old(queues), queues, old(descriptions), descriptions, old(fenceSet), inFlight, imageCount,
                         description, fenceWait, createError, r)
    {
      if !yCbCrSupported && IsYCbCrFormat(description.format) {
        return Answered(Err(Display.YCbCrMessage(vulkanVersion)));
      }
      r := TakeDescribedImage(description, fenceWait, createError);
    }

    /**
     * Waiting for the fence of the transfer image `id` the provider has
     * just taken, when a submission used it: a failed wait (`fenceWait`)
     * loses the image; a successful one leaves it no longer in flight.
     */
    method WaitForFence(id: nat, fenceWait: VkResult) returns (waited: bool)
      requires Valid() && id in queues.providerImages
      modifies this`queues, this`inFlight
      ensures Valid() && id < imageCount
      ensures waited <==> fenceWait == Success || !fenceSet[id]
      ensures waited ==> queues == old(queues) && id !in inFlight
      ensures !waited ==>
        queues == old(queues).(providerImages := old(queues.providerImages) - multiset{id},
                               lostImages := old(queues.lostImages) + multiset{id})
    {
      HeldImageExists(queues, id, imageCount);
      if fenceSet[id] {
        if fenceWait != Success {
          ProviderLoses(queues, id, imageCount);
          queues := queues.(providerImages := queues.providerImages - multiset{id},
                            lostImages := queues.lostImages + multiset{id});
          return false;
        }
      }
      inFlight := inFlight - {id};
      waited := true;
    }

    /**
     * The part of `acquire_image` past the format check: take a transfer
     * image, wait for its fence if a submission used it, and give it the
     * requested description.
     */
    method TakeDescribedImage(description: ImageDescription, fenceWait: VkResult, createError: Option<string>)
      returns (r: Answer<Result<nat>>)
      requires Valid()
      requires queues.availableImages != [] || queues.availableQueue != []
      modifies this`queues, this`descriptions, this`inFlight
      ensures Valid() && fenceSet == old(fenceSet)
      ensures NoNulls(old(queues.availableQueue)) ==> NoNulls(queues.availableQueue)
      ensures DescribedOutcome(old(queues), queues, old(descriptions), descriptions, old(fenceSet), inFlight, imageCount,
                               description, fenceWait, createError, r)
    {
      var taken := AcquireTransferImage();
      if taken.NullDereference? {
        return NullDereference;
      }
      var described := DescribeTaken(taken.value, description, fenceWait, createError);
      r := Answered(described);
    }

    /**
     * The producer holds image `id`: wait for its fence if a submission
     * used it, then recreate it if its description differs from the
     * request. Either failure loses the image.
     */
    method DescribeTaken(id: nat, description: ImageDescription, fenceWait: VkResult, createError: Option<string>)
      returns (r: Result<nat>)
      requires Valid() && id in queues.providerImages && id < imageCount
      modifies this`queues, this`descriptions, this`inFlight
      ensures Valid()
      ensures TakenOutcome(id, old(queues), queues, old(descriptions), descriptions, fenceSet, inFlight,
                           description, fenceWait, createError, r)
    {
      var waited := WaitForFence(id, fenceWait);
      if !waited {
        return Err(Display.FENCE_WAIT_FAILED);
      }
      if descriptions[id] != description {
        if createError.Some? {
          ProviderLoses(queues, id, imageCount);
          queues := queues.(providerImages := queues.providerImages - multiset{id},
                            lostImages := queues.lostImages + multiset{id});
          return Err(createError.value);
        }
        descriptions := descriptions[id := description];
      }
      r := Ok(id);
    }

    /**
     * `queue_image`: the image (an empty one when `img` is `None`) joins
     * the filled queue, which has no bound; nothing is ever discarded.
     */
    method QueueImage(img: Option<nat>) returns (discarded: bool)
      requires Valid() && (img.Some? ==> img.value in queues.providerImages)
      modifies this`queues
      ensures Valid() && !discarded
      ensures queues == old(queues).(filledQueue := old(queues.filledQueue) + [img],
                                     providerImages := old(queues.providerImages) - multiset(Display.NonNull(img)))
    {
      ProviderQueues(queues, img, imageCount);
      queues := queues.(filledQueue := queues.filledQueue + [img],
                        providerImages := queues.providerImages - multiset(Display.NonNull(img)));
      discarded := false;
    }

    /** `discard_image`: the producer gives an image back through the available queue. */
    method DiscardImage(x: nat)
      requires Valid() && x in queues.providerImages
      modifies this`queues
      ensures Valid()
      ensures queues == old(queues).(availableQueue := old(queues.availableQueue) + [Some(x)],
                                     providerImages := old(queues.providerImages) - multiset{x})
    {
      ProviderDiscards(queues, x, imageCount);
      queues := queues.(availableQueue := queues.availableQueue + [Some(x)],
                        providerImages := queues.providerImages - multiset{x});
    }

    /**
     * `try_dequeue` on the filled queue and `wait_enqueue` on the
     * available queue, with the null check of the minimized short cut or,
     * `asWritten` in the retry loop, without it.
     */
    method DiscardFilled(checkNull: bool)
      requires Valid()
      modifies this`queues
      ensures Valid()
      ensures queues == if checkNull then DiscardFront(old(queues)) else DiscardFrontAsWritten(old(queues))
      ensures queues.lostImages == old(queues.lostImages) && queues.renderImages == old(queues.renderImages)
      ensures checkNull && NoNulls(old(queues.availableQueue)) ==> NoNulls(queues.availableQueue)
    {
      if checkNull {
        DiscardAccounted(queues, imageCount);
        if NoNulls(queues.availableQueue) {
          DiscardFrontKeepsNoNulls(queues);
        }
        queues := DiscardFront(queues);
      } else {
        DiscardAsWrittenAccounted(queues, imageCount);
        queues := DiscardFrontAsWritten(queues);
      }
    }

    /**
     * `wait_dequeue_timed` on the filled queue: in a sequential run it
     * succeeds exactly when the queue is not empty. A dequeued null pointer
     * ends the call like a timeout does.
     */
    method DequeueFilled() returns (image: Option<nat>)
      requires Valid() && Idle()
      modifies this`queues
      ensures Valid()
      ensures old(queues.filledQueue) == [] ==> image.None? && queues == old(queues)
      ensures old(queues.filledQueue) != [] ==>
        && image == old(queues.filledQueue)[0]
        && queues == old(queues).(filledQueue := old(queues.filledQueue)[1..],
                                  renderImages := multiset(Display.NonNull(image)))
    {
      if queues.filledQueue == [] {
        return None;
      }
      image := queues.filledQueue[0];
      TakeFilled(queues, imageCount);
      queues := queues.(filledQueue := queues.filledQueue[1..],
                        renderImages := queues.renderImages + multiset(Display.NonNull(image)));
    }

    /**
     * The description check of `display_queued_image`: a new format
     * rebuilds the sampler, the descriptor set layout, the pipeline and
     * the descriptor sets; any new description becomes the current one
     * and recomputes the render area for the context's window size.
     */
    method PrepareRenderState(image: nat) returns (rebuilt: bool)
      requires image < |descriptions|
      modifies this`currentDescription, this`pipelineFormat, this`renderTargets
      ensures currentDescription == descriptions[image]
      ensures rebuilt <==> descriptions[image].format != old(currentDescription.format)
      ensures old(RenderStateConsistent()) ==> RenderStateConsistent()
      ensures !rebuilt ==> pipelineFormat == old(pipelineFormat)
      ensures descriptions[image] != old(currentDescription) ==>
        renderTargets == UpdateRenderArea(windowSize, descriptions[image].size)
      ensures descriptions[image] == old(currentDescription) ==> renderTargets == old(renderTargets)
    {
      rebuilt := false;
      if descriptions[image] != currentDescription {
        var format := descriptions[image].format;
        if format != currentDescription.format {
          pipelineFormat := format;
          rebuilt := true;
        }
        currentDescription := descriptions[image];
        renderTargets := UpdateRenderArea(windowSize, currentDescription.size);
      }
    }

    /** `recreate_swapchain`: the new size, clamped to the surface, the new vsync flag, and a new swapchain. */
    method RecreateSwapchain(parameters: WindowParameters, surface: Display.Surface)
      requires SurfaceFits(surface)
      modifies this`windowSize, this`vsync, this`swapchain
      ensures windowSize == VulkanContext.ClampExtent(Extent2D(parameters.width, parameters.height), surface.caps)
      ensures IsU32(windowSize.width) && IsU32(windowSize.height)
      ensures vsync == parameters.vsync && swapchain == old(swapchain) + 1
    {
      windowSize := VulkanContext.ClampExtent(Extent2D(parameters.width, parameters.height), surface.caps);
      vsync := parameters.vsync;
      swapchain := swapchain + 1;
    }

    /** One retry of the acquisition: the swapchain is recreated for `window` and the render area follows it. */
    method RecreateForWindow(window: WindowParameters, surface: Display.Surface)
      requires Valid() && SurfaceFits(surface)
      modifies this`windowSize, this`vsync, this`swapchain, this`renderTargets
      ensures Valid()
      ensures renderTargets == UpdateRenderArea(Extent2D(window.width, window.height), currentDescription.size)
    {
      RecreateSwapchain(window, surface);
      renderTargets := UpdateRenderArea(Extent2D(window.width, window.height), currentDescription.size);
    }

    /**
     * The acquisition loop: an out-of-date or timed-out swapchain image
     * recreates the swapchain and the render area for the window read
     * anew, at most three times; a minimized window ends the frame after
     * moving the front of the filled queue to the available queue (with
     * the null check unless `asWritten`).
     */
    method AcquireSwapchainImage(env: RenderEnv, asWritten: bool) returns (o: Display.Acquisition)
      requires Valid() && EnvShaped(env)
      modifies this`queues, this`windowSize, this`vsync, this`swapchain, this`renderTargets
      ensures Valid() && o == Acquisition(env)
      ensures o == Display.MinimizedWhileRetrying ==>
        queues == if asWritten then DiscardFrontAsWritten(old(queues)) else DiscardFront(old(queues))
      ensures o != Display.MinimizedWhileRetrying ==> queues == old(queues)
      ensures queues.lostImages == old(queues.lostImages) && queues.renderImages == old(queues.renderImages)
      ensures !asWritten && NoNulls(old(queues.availableQueue)) ==> NoNulls(queues.availableQueue)
      ensures renderTargets == old(renderTargets) || Display.ForSomeRetry(renderTargets, SizesOf(env.retryWindows), currentDescription.size)
    {
      var windows := SizesOf(env.retryWindows);
      var attempt := 0;
      var acquired := env.acquires[0];
      while acquired.Ok? && Display.IsSentinel(acquired.value)
        invariant attempt <= Display.MAX_SWAPCHAIN_RECREATIONS && acquired == env.acquires[attempt]
        invariant Display.AcquireOutcome(env.acquires, windows, attempt) == Acquisition(env)
        invariant Valid() && queues == old(queues)
        invariant renderTargets == old(renderTargets) || Display.ForSomeRetry(renderTargets, SizesOf(env.retryWindows), currentDescription.size)
        decreases Display.MAX_SWAPCHAIN_RECREATIONS - attempt
      {
        attempt := attempt + 1;
        if attempt > Display.MAX_SWAPCHAIN_RECREATIONS {
          return Display.AcquireFailed(Display.CANNOT_ACQUIRE);
        }
        var window := env.retryWindows[attempt - 1];
        if Minimized(window) {
          DiscardFilled(!asWritten);
          return Display.MinimizedWhileRetrying;
        }
        RecreateForWindow(window, env.surface);
        assert windows[attempt - 1] == SizeOf(window);
        acquired := env.acquires[attempt];
      }
      o := if acquired.Err? then Display.AcquireFailed(acquired.message) else Display.Acquired(acquired.value);
    }

    /** The submission's fence for image `x` is set and the image is in flight. */
    method SetFence(x: nat)
      requires Valid() && queues.renderImages == multiset{x}
      modifies this`fenceSet, this`inFlight
      ensures Valid()
      ensures x < |fenceSet| && fenceSet == old(fenceSet)[x := true] && inFlight == old(inFlight) + {x}
    {
      HeldImageExists(queues, x, imageCount);
      fenceSet := fenceSet[x := true];
      inFlight := inFlight + {x};
    }

    /**
     * The render thread lets go of the image `x` it holds: back to the
     * available queue when `handBack`, otherwise lost.
     */
    method ReleaseHeld(x: nat, handBack: bool)
      requires Valid() && queues.renderImages == multiset{x}
      modifies this`queues
      ensures Valid() && Idle()
      ensures handBack ==>
        queues == old(queues).(renderImages := multiset{}, availableQueue := old(queues.availableQueue) + [Some(x)])
      ensures !handBack ==>
        queues == old(queues).(renderImages := multiset{}, lostImages := old(queues.lostImages) + multiset{x})
      ensures NoNulls(old(queues.availableQueue)) ==> NoNulls(queues.availableQueue)
    {
      if handBack {
        RenderReturns(queues, x, imageCount);
        queues := queues.(renderImages := queues.renderImages - multiset{x},
                          availableQueue := queues.availableQueue + [Some(x)]);
      } else {
        RenderLoses(queues, x, imageCount);
        queues := queues.(renderImages := queues.renderImages - multiset{x},
                          lostImages := queues.lostImages + multiset{x});
      }
    }

    /**
     * The end of `display_queued_image`: with a swapchain image the
     * image's `fence_set` flag is raised and the frame is submitted behind
     * its fence; if the submission succeeds and the present result is
     * tolerated, the image goes straight back to the available queue. A
     * minimized window during the retries hands the image back only when
     * not `asWritten`; every other outcome returns holding the image, which
     * is lost.
     */
    method FinishFrame(x: nat, o: Display.Acquisition, submit: VkResult, present: VkResult, asWritten: bool)
      returns (r: Result<bool>)
      requires Valid() && queues.renderImages == multiset{x}
      modifies this`queues, this`fenceSet, this`inFlight
      ensures Valid() && Idle()
      ensures r == Ok(true) <==> o.Acquired? && Display.FrameShown(submit, present)
      ensures r.Err? <==> o.AcquireFailed? || (o.Acquired? && !Display.FrameShown(submit, present))
      ensures o.MinimizedWhileRetrying? ==> r == Ok(false)
      ensures o.Acquired? && submit != Success ==> r == Err(Display.SUBMIT_FAILED)
      ensures o.Acquired? && submit == Success && !Display.PresentTolerated(present) ==> r == Err(Display.PRESENT_FAILED)
      ensures o.Acquired? ==> x < |fenceSet| && fenceSet == old(fenceSet)[x := true] && inFlight == old(inFlight) + {x}
      ensures !o.Acquired? ==> fenceSet == old(fenceSet) && inFlight == old(inFlight)
      ensures r == Ok(true) || (o.MinimizedWhileRetrying? && !asWritten) ==>
        queues == old(queues).(renderImages := multiset{}, availableQueue := old(queues.availableQueue) + [Some(x)])
      ensures !(r == Ok(true) || (o.MinimizedWhileRetrying? && !asWritten)) ==>
        queues == old(queues).(renderImages := multiset{}, lostImages := old(queues.lostImages) + multiset{x})
      ensures NoNulls(old(queues.availableQueue)) ==> NoNulls(queues.availableQueue)
    {
      if o.Acquired? {
        SetFence(x);
      }
      ReleaseHeld(x, (o.Acquired? && Display.FrameShown(submit, present)) || (o.MinimizedWhileRetrying? && !asWritten));
      r := match o
        case Acquired(_) =>
          if submit != Success then Err(Display.SUBMIT_FAILED)
          else if Display.PresentTolerated(present) then Ok(true)
          else Err(Display.PRESENT_FAILED)
        case MinimizedWhileRetrying => Ok(false)
        case AcquireFailed(message) => Err(message);
    }

    /**
     * The part of `display_queued_image` once the render thread holds an
     * image: set up the render state for its description, acquire a
     * swapchain image, submit and present.
     */
    method PresentHeld(x: nat, env: RenderEnv, asWritten: bool) returns (r: Result<bool>)
      requires Valid() && queues.renderImages == multiset{x} && RenderStateConsistent() && EnvShaped(env)
      modifies this`queues, this`fenceSet, this`inFlight, this`currentDescription, this`pipelineFormat,
               this`renderTargets, this`windowSize, this`vsync, this`swapchain
      ensures Valid() && Idle() && RenderStateConsistent()
      ensures HeldOutcome(env, x, old(queues), queues, r, asWritten)
      ensures r == Ok(true) ==> x < |fenceSet| && fenceSet[x] && x in inFlight && currentDescription == descriptions[x]
    {
      HeldImageExists(queues, x, imageCount);
      var rebuilt := PrepareRenderState(x);
      r := SubmitHeld(x, env, asWritten);
    }

    /** Acquire a swapchain image for the held image `x`, raise its `fence_set` flag, submit and present it. */
    method SubmitHeld(x: nat, env: RenderEnv, asWritten: bool) returns (r: Result<bool>)
      requires Valid() && queues.renderImages == multiset{x} && EnvShaped(env)
      modifies this`queues, this`fenceSet, this`inFlight, this`renderTargets, this`windowSize, this`vsync, this`swapchain
      ensures Valid() && Idle()
      ensures HeldOutcome(env, x, old(queues), queues, r, asWritten)
      ensures r == Ok(true) ==> x < |fenceSet| && fenceSet[x] && x in inFlight
    {
      var o := AcquireSwapchainImage(env, asWritten);
      r := FinishFrame(x, o, env.submit, env.present, asWritten);
    }

    /**
     * `display_queued_image`. Returns whether a frame was presented (the
     * `displayed` flag); an error is a failed check. `asWritten` keeps the
     * retry loop's discard as the source has it: without the null check,
     * and forgetting the image the call holds.
     */
    method DisplayQueuedImage(env: RenderEnv, asWritten: bool) returns (r: Result<bool>)
      requires Valid() && Idle() && RenderStateConsistent() && EnvShaped(env)
      modifies this`queues, this`fenceSet, this`inFlight, this`currentDescription, this`pipelineFormat,
               this`renderTargets, this`windowSize, this`vsync, this`swapchain
      ensures Valid() && Idle() && RenderStateConsistent()
      ensures FrameOutcome(env, old(queues), queues, r, asWritten)
      ensures r == Ok(true) ==>
        var x := old(queues.filledQueue[0].value);
        x < |fenceSet| && fenceSet[x] && x in inFlight && currentDescription == descriptions[x]
    {
      if Minimized(env.window) {
        MinimizedFrame(env, queues, asWritten);
        DiscardFilled(true);
        return Ok(false);
      }
      var image := DequeueFilled();
      if image.None? {
        NoFrame(env, old(queues), queues, asWritten);
        return Ok(false);
      }
      r := PresentHeld(image.value, env, asWritten);
      HeldFrame(env, old(queues), old(queues).(filledQueue := old(queues.filledQueue[1..]),
                                               renderImages := multiset{image.value}), queues, r, asWritten);
    }

    /**
     * `window_parameters_changed`: parameters that differ from the
     * context's (size or vsync) and are not minimized recreate the
     * swapchain and the render area; anything else changes nothing.
     */
    method WindowParametersChanged(parameters: WindowParameters, surface: Display.Surface)
      requires Valid() && SurfaceFits(surface)
      modifies this`windowSize, this`vsync, this`swapchain, this`renderTargets
      ensures Valid()
      ensures var changed := parameters != old(ContextWindowParameters()) && !Minimized(parameters);
        && (changed ==>
              && windowSize == VulkanContext.ClampExtent(Extent2D(parameters.width, parameters.height), surface.caps)
              && vsync == parameters.vsync && swapchain == old(swapchain) + 1
              && renderTargets == UpdateRenderArea(Extent2D(parameters.width, parameters.height), currentDescription.size))
        && (!changed ==>
              && windowSize == old(windowSize) && vsync == old(vsync) && swapchain == old(swapchain)
              && renderTargets == old(renderTargets))
    {
      if parameters != ContextWindowParameters() && !Minimized(parameters) {
        RecreateSwapchain(parameters, surface);
        renderTargets := UpdateRenderArea(Extent2D(parameters.width, parameters.height), currentDescription.size);
      }
    }

    /** `window_parameters_changed()`: the same, with the parameters the window reports now. */
    method WindowParametersChangedFromWindow(current: WindowParameters, surface: Display.Surface)
      requires Valid() && SurfaceFits(surface)
      modifies this`windowSize, this`vsync, this`swapchain, this`renderTargets
      ensures Valid()
      ensures var changed := current != old(ContextWindowParameters()) && !Minimized(current);
        && (changed ==> vsync == current.vsync && swapchain == old(swapchain) + 1)
        && (!changed ==> windowSize == old(windowSize) && vsync == old(vsync) && swapchain == old(swapchain))
    {
      WindowParametersChanged(current, surface);
    }
  }

  /**
   * The image `acquire_transfer_image` takes from these queues: one of the
   * pool's, or a null pointer from the front of the available queue.
   */
  function TakenImage(q: Queues, n: nat): (x: Answer<nat>)
    requires Accounted(q, n)
    requires q.availableImages != [] || q.availableQueue != []
    ensures x.Answered? ==> x.value < n
    ensures x.NullDereference? <==> q.availableImages == [] && q.availableQueue[0].None?
  {
    if q.availableImages != [] then TakeFromList(q, n); Answered(Display.Last(q.availableImages))
    else if q.availableQueue[0].None? then NullDereference
    else TakeFromQueue(q, n); Answered(q.availableQueue[0].value)
  }

  /** The queues once `acquire_transfer_image` has taken its image (or a null pointer). */
  function AfterTake(q: Queues): (q': Queues)
    requires q.availableImages != [] || q.availableQueue != []
    ensures q'.lostImages == q.lostImages && q'.filledQueue == q.filledQueue && q'.renderImages == q.renderImages
  {
    if q.availableImages != [] then
      q.(availableImages := Display.DropLast(q.availableImages),
         providerImages := q.providerImages + multiset{Display.Last(q.availableImages)})
    else
      q.(availableQueue := q.availableQueue[1..],
         providerImages := q.providerImages + multiset(Display.NonNull(q.availableQueue[0])))
  }

  /**
   * What `acquire_image` does with the image `x` the producer has taken,
   * from the queues `q`, descriptions `d` and `fence_set` flags `f` to the
   * queues `q'`, descriptions `d'` and in-flight set `inFlight'`: a failed
   * fence wait, then a failed re-creation for a new description, loses the
   * image; otherwise the producer keeps it with the requested description
   * and no submission in flight.
   */
  ghost predicate TakenOutcome(x: nat, q: Queues, q': Queues, d: seq<ImageDescription>, d': seq<ImageDescription>,
                               f: seq<bool>, inFlight': set<nat>, description: ImageDescription,
                               fenceWait: VkResult, createError: Option<string>, r: Result<nat>)
    requires x < |d| && x < |f|
  {
    var waits := fenceWait == Success || !f[x];
    var creates := d[x] == description || createError.None?;
    && (!waits ==> r == Err(Display.FENCE_WAIT_FAILED))
    && (waits && !creates ==> r == Err(createError.value))
    && (r == Ok(x) <==> waits && creates)
    && (r.Err? ==>
          d' == d && q' == q.(providerImages := q.providerImages - multiset{x}, lostImages := q.lostImages + multiset{x}))
    && (r.Ok? ==> d' == d[x := description] && x !in inFlight' && q' == q)
  }

  /**
   * What `acquire_image` does past its format check: a null pointer taken
   * from the available queue leaves no defined result; otherwise the image
   * taken fares as `TakenOutcome` says.
   */
  ghost predicate DescribedOutcome(q: Queues, q': Queues, d: seq<ImageDescription>, d': seq<ImageDescription>,
                                   f: seq<bool>, inFlight': set<nat>, n: nat, description: ImageDescription,
                                   fenceWait: VkResult, createError: Option<string>, r: Answer<Result<nat>>)
    requires Accounted(q, n) && |d| == n && |f| == n
    requires q.availableImages != [] || q.availableQueue != []
  {
    var t := TakenImage(q, n);
    && (t.NullDereference? ==> r == NullDereference && d' == d && q' == AfterTake(q))
    && (t.Answered? ==>
          r.Answered? && TakenOutcome(t.value, AfterTake(q), q', d, d', f, inFlight', description, fenceWait, createError, r.value))
  }
}
