# UltraGrid presentation core, modelled in Dafny

This project models the part of UltraGrid that moves raw video frames from a
producer thread to the screen, plus the capture and transmit pieces that feed
it. Each module follows one source file (or a header and its implementation).
The imperative parts are classes whose methods change their fields. The pure
parts are datatypes, functions and lemmas.

- **Vulkan display, newer engine** (`display.dfy`). The pool of transfer
  images moves between several places:
  - the provider's list and the available queue;
  - the filled queue;
  - the render thread;
  - the rendered queue, where an image waits behind its fence.

  The frame-in-flight slots move in the same way. The invariant `Accounted`
  says every image and every slot is in exactly one place. A place named
  `lost` collects what a code path drops. `display_queued_image` is modelled
  as one method whose outcome is stated by `FrameOutcome`, which gives the
  result and the new queues on every path (the reference functions
  `Reclaimed`, `SlotQueues`, `HeldQueues` and `FrameEnd`). That covers:
  - a minimized window;
  - fence failures;
  - a missing free slot or filled image;
  - the swapchain acquire with its bounded re-creation retries;
  - the present.

  The render state has to match the current image description. This covers
  the format-conversion images, the YCbCr sampler and the descriptor-pool
  use, and is stated by `RenderStateConsistent`.
- **Vulkan display, older engine** (`display_legacy.dfy`). The same pool over
  the older `concurrent_queue` deque. The render-thread queue there can carry
  null pointers.

  Both displays test for a minimized window as the source does: `width *
  height == 0` with the product taken modulo 2^32
  (`VulkanContext.IsMinimizedAsWritten`). "Minimized" in the rows below means
  that test.
- **Vulkan contexts** (`vulkan_context.dfy`, `vulkan_context_legacy.dfy`):
  - GPU and queue-family selection;
  - the device-extension check;
  - present-mode and composite-alpha choice;
  - swapchain image-count clamping;
  - window-parameter tracking and minimization.
- **Transfer images** (`transfer_image.dfy`, `transfer_image_legacy.dfy`):
  - padding;
  - the memory-type search;
  - format support;
  - image creation and recreation;
  - the layout/access barrier bookkeeping;
  - the one-shot preprocess callback.
- **Queues and the ring buffer**:
  - the bounded mutex queue (`concurrent_queue.dfy`);
  - the older deque with its skip flag (`concurrent_deque.dfy`);
  - the byte ring buffer with its doubled read and write indices
    (`ring_buffer.dfy`).
- **Render area** (`render_area.dfy`): the aspect-preserving viewport in
  exact integer arithmetic.
- **SDL2 front end** (`sdl2.dfy`):
  - the key translation;
  - the key commands;
  - the option parser;
  - the window callback;
  - `putf`.
- **Testcard capture** (`testcard.dfy`):
  - fps and format parsing;
  - the option loop;
  - the audio cadence and its buffer pointer;
  - the mode probe.
- **DirectShow capture** (`dshow.dfy`):
  - argument parsing;
  - the subtype table;
  - the `BufferCB`/grab buffer swap;
  - the `yuv_clamp` table;
  - `convert_yuyv_rgb`.
- **Video post-processing chain** (`postprocess.dfy`):
  - config splitting;
  - init;
  - reconfigure;
  - `getf`;
  - processing;
  - `get_out_desc`;
  - `get_property`.
- **H.264 SDP sender** (`h264_sdp.dfy`):
  - option errors;
  - the address-change callback;
  - `sdp_add_video` outcomes;
  - the `send_frame` latch on the first opaque codec.

Shared pieces:
- `wrappers.dfy`: `Option`, `Result`, and `Answer`, the result of a call
  that may dereference a null pointer.
- `cstrings.dfy`: the C library routines the parsers rely on, namely `atoi`,
  `strtol`, `strtod`, `strtok` and `strchr`.
- `video.dfy`: video descriptions and codecs.
- `vk_types.dfy`: the Vulkan enumerations, 32-bit arithmetic and image
  descriptions.

Some source files are not part of this model:
- `src/video_display/vulkan/vulkan_display.hpp`, the header next to the newer
  engine's implementation. The members declared there are cited from
  `src/video_display/vulkan_display.hpp`, which declares a class with the
  same members.
- The implementation file of the older Vulkan context declared in
  `vulkan_context.h`. Its swapchain re-creation is cited from that header's
  declaration.

## Model

| member | source | states |
|---|---|---|
| ConcurrentQueueModel.ConcurrentQueue.constructor | src/video_display/vulkan/concurrent_queue.hpp:187-192 | a new queue is empty and keeps its bound |
| ConcurrentQueueModel.ConcurrentQueue.TryPop | src/video_display/vulkan/concurrent_queue.hpp:200-218 | the front element is removed and returned; an empty queue gives `T{}` and stays empty |
| ConcurrentQueueModel.ConcurrentQueue.WaitPop | src/video_display/vulkan/concurrent_queue.hpp:200-222 | once an element is there, the front one is removed and returned |
| ConcurrentQueueModel.ConcurrentQueue.TimedPop | src/video_display/vulkan/concurrent_queue.hpp:224-238 | a wait that ends on an empty queue gives `T{}` and no change; otherwise the front element is removed and returned |
| ConcurrentQueueModel.ConcurrentQueue.ForcePush | src/video_display/vulkan/concurrent_queue.hpp:240-249 | on a full queue the oldest element is dropped and returned before the item is appended; otherwise `T{}` is returned; the bound is kept |
| ConcurrentQueueModel.ConcurrentQueue.TryPush | src/video_display/vulkan/concurrent_queue.hpp:251-258 | the item is appended and true returned exactly when the queue is below its bound; otherwise nothing changes |
| ConcurrentQueueModel.ConcurrentQueue.WaitPush | src/video_display/vulkan/concurrent_queue.hpp:260-266 | once there is room (always, for an unbounded queue), the item is appended |
| ConcurrentQueueModel.ConcurrentQueue.PushThenPop | src/video_display/vulkan/concurrent_queue.hpp:194-222 | two items pushed onto an empty queue come out in the order they went in |
| ConcurrentQueueModel.UnlimitedNeverBlocks | src/video_display/vulkan/concurrent_queue.hpp:260-264 | `wait_push` never waits on a queue of `unlimited_size` |
| ConcurrentDequeModel.ConcurrentDeque.constructor | src/video_display/concurent_queue.h:10-18 | a new deque is empty with the skip flag clear |
| ConcurrentDequeModel.ConcurrentDeque.Empty | src/video_display/concurent_queue.h:27-30 | true exactly when there are no elements |
| ConcurrentDequeModel.ConcurrentDeque.Size | src/video_display/concurent_queue.h:32-36 | the number of elements |
| ConcurrentDequeModel.ConcurrentDeque.EmplaceBack | src/video_display/concurent_queue.h:46-54 | the element is appended and the skip flag cleared |
| ConcurrentDequeModel.ConcurrentDeque.Push | src/video_display/concurent_queue.h:38-44 | `push` is `emplace_back`: appended, flag cleared |
| ConcurrentDequeModel.ConcurrentDeque.EmplaceFront | src/video_display/concurent_queue.h:56-64 | the element is inserted at the front and the skip flag cleared |
| ConcurrentDequeModel.ConcurrentDeque.Pop | src/video_display/concurent_queue.h:66-72 | once the deque is non-empty, the front element is removed and returned |
| ConcurrentDequeModel.ConcurrentDeque.TryPop | src/video_display/concurent_queue.h:74-86 | nothing is returned exactly when the deque is empty, and then the skip flag is set; otherwise the front element is removed and returned and the flag is kept |
| RenderArea.RoundDiv | src/video_display/vulkan_display.cpp:49-54 | the result is the nearest integer to `p / q`, halves rounding up, as `std::round` does for non-negative quotients |
| RenderArea.UpdateRenderArea | src/video_display/vulkan_display.cpp:41-70 | a zero-sized window or image gives no area (the source divides by zero there); otherwise the area lies inside the window, keeps the image's aspect up to rounding, is centred, and viewport and scissor equal it |
| RenderArea.FitHeight | src/video_display/vulkan_display.cpp:47-51 | for a window wider than the image: full height, a width that fits, the image's aspect kept |
| RenderArea.FitWidth | src/video_display/vulkan_display.cpp:52-57 | for a window not wider than the image: full width, a height that fits, the image's aspect kept |
| RenderArea.FitHeightBound | src/video_display/vulkan_display.cpp:44-50 | the rounded width never exceeds the window width and keeps the aspect |
| RenderArea.FitWidthBound | src/video_display/vulkan_display.cpp:44-56 | the rounded height never exceeds the window height and keeps the aspect |
| RenderArea.RoundDivExact | src/video_display/vulkan_display.cpp:49-54 | rounding an exact quotient gives the quotient |
| RenderArea.SameAspectFillsWindow | src/video_display/vulkan_display.cpp:41-57 | a window with the image's proportions is filled completely, with no margins |
| RenderArea.PillarBoxExample | src/video_display/vulkan_display.cpp:47-51 | a 640x480 image in a 1920x1080 window is drawn 1440 wide at x = 240 |
| RingBuffer.Slot | src/utils/ring_buffer.cpp:47-61 | a doubled index in [0, 2·len) names the storage slot `index % len` |
| RingBuffer.Distance | src/utils/ring_buffer.cpp:83-89 | how far the write index is ahead of the read index on the doubled circle, in [0, 2·len) |
| RingBuffer.AvailRead | src/utils/ring_buffer.cpp:83-89 | `calculate_avail_read` is between 0 and len, equals the distance when the writer has not run ahead by more than len, and is len exactly when both indices name the same slot in different halves |
| RingBuffer.AvailWrite | src/utils/ring_buffer.cpp:91-93 | the free space is len minus the waiting bytes, and 0 exactly when the ring is full |
| RingBuffer.View | src/utils/ring_buffer.cpp:96-125 | the waiting bytes are `AvailRead` bytes from the read slot on, wrapping round the storage |
| RingBuffer.Stored | src/utils/ring_buffer.cpp:207-225 | storing input from a slot on changes exactly the slots it covers, wrapping round the end |
| RingBuffer.FillByte | src/utils/ring_buffer.cpp:231-249 | `memset` stores `c` converted to `unsigned char`, that is `c mod 256` |
| RingBuffer.GrowsBy | src/utils/ring_buffer.cpp:192-205 | moving the write index over n free bytes adds n to the waiting count and keeps the ring consistent |
| RingBuffer.ShrinksBy | src/utils/ring_buffer.cpp:127-136 | moving the read index over m waiting bytes takes m from the waiting count |
| RingBuffer.StoreAppends | src/utils/ring_buffer.cpp:207-225 | storing bytes that fit in the free space and moving the write index appends exactly those bytes to the waiting bytes |
| RingBuffer.AdvanceDrops | src/utils/ring_buffer.cpp:127-153 | moving the read index over m waiting bytes drops exactly the first m of them |
| RingBuffer.Ring.constructor | src/utils/ring_buffer.cpp:66-75 | `ring_buffer_init`: zeroed storage of the given size, both indices 0, nothing waiting |
| RingBuffer.Ring.GetSize | src/utils/ring_buffer.cpp:227-229 | the storage length |
| RingBuffer.Ring.GetCurrentSize | src/utils/ring_buffer.cpp:266-270 | the number of waiting bytes, between 0 and len |
| RingBuffer.Ring.GetAvailableWriteSize | src/utils/ring_buffer.cpp:272-276 | the free space; with the waiting bytes it adds up to len |
| RingBuffer.Ring.GetReadRegions | src/utils/ring_buffer.cpp:96-125 | `min(available, max_len)` bytes from the read slot, split at the end of the storage, the second region at slot 0 only when they wrap |
| RingBuffer.Ring.ReadRegionsHoldContents | src/utils/ring_buffer.cpp:96-125 | the two read regions hold exactly the first `total` waiting bytes, in order |
| RingBuffer.Ring.GetWriteRegions | src/utils/ring_buffer.cpp:164-190 | no regions for a request longer than the storage; otherwise the requested slots after the write slot, the second region at slot 0 only when they wrap |
| RingBuffer.Ring.AdvanceReadIdx | src/utils/ring_buffer.cpp:127-136 | the read index moves on by the amount modulo 2·len; within the waiting bytes, they shrink by the amount |
| RingBuffer.Ring.AdvanceWriteIdx | src/utils/ring_buffer.cpp:192-205 | the write index moves on by the amount modulo 2·len in every case, and overflow is reported exactly when the amount exceeds the free space |
| RingBuffer.Ring.Read | src/utils/ring_buffer.cpp:138-153 | `min(size, max_len)` waiting bytes are copied to `out` in order and consumed; storage and write index are unchanged |
| RingBuffer.Ring.CopyOut | src/utils/ring_buffer.cpp:138-153 | the copies fill the front of `out` with the first region followed by the second |
| RingBuffer.Ring.StoreRegions | src/utils/ring_buffer.cpp:207-225 | the copies store the input from the write slot on, wrapping |
| RingBuffer.Ring.Write | src/utils/ring_buffer.cpp:207-225 | an empty or too long input changes nothing; otherwise the bytes are stored and the write index moves on, an overflow is reported exactly when the input exceeds the free space, and without overflow the input is appended to the waiting bytes |
| RingBuffer.Ring.Fill | src/utils/ring_buffer.cpp:231-249 | as `Write`, with `size` copies of the fill byte |
| RingBuffer.Ring.Flush | src/utils/ring_buffer.cpp:155-162 | both indices return to 0 and nothing is waiting; the storage is untouched |
| RingBuffer.WriteThenRead | src/utils/ring_buffer.cpp:138-225 | bytes written to an empty ring come back out of a read, in order, leaving it empty |
| RingBuffer.OverflowScenario | src/utils/ring_buffer.cpp:192-205 | on a 4-byte ring, 3 bytes and 3 more report an overflow and leave only 2 bytes waiting |
| Sdl2.NavigationKey | src/video_display/vulkan_sdl2.cpp:236-244 | a scancode key maps to one of the six navigation codes or to unknown |
| Sdl2.TranslateKey | src/video_display/vulkan_sdl2.cpp:206-245 | a Ctrl key alone is not interpreted (and only it); any modifier other than lock keys, Ctrl and Shift makes the key unknown; a character key keeps its code, upper-cased with Shift, and is a Ctrl code exactly when Ctrl is held; of the scancode keys only arrows and page keys have codes |
| Sdl2.LockModifiersIgnored | src/video_display/vulkan_sdl2.cpp:207 | Num Lock and Caps Lock never change the translation |
| Sdl2.NavigationKeysTranslate | src/video_display/vulkan_sdl2.cpp:214-244 | the arrows and page keys keep their codes with Shift, Ctrl or lock keys held |
| Sdl2.CharacterKeyExamples | src/video_display/vulkan_sdl2.cpp:214-235 | Shift+a is 'A', Ctrl+Shift+a is `K_CTRL('A')`, Alt+a is unknown |
| Sdl2.ApplyOption | src/video_display/vulkan_sdl2.cpp:457-507 | a token fails exactly when it is unknown, or is `window_flags=` without a number, or `pos=` without a comma; "help" and only it asks for help |
| Sdl2.FixedSize | src/video_display/vulkan_sdl2.cpp:475-483 | any token starting with "fixed_size" asks for a fixed size |
| Sdl2.ParseConfiguredIff | src/video_display/vulkan_sdl2.cpp:455-509 | the options are accepted exactly when no token is "help" and none fails |
| Sdl2.FirstBadOptionFails | src/video_display/vulkan_sdl2.cpp:503-507 | a failing token after accepted ones fails the whole initialisation |
| Sdl2.FixedSizeSetsBothSides | src/video_display/vulkan_sdl2.cpp:475-483 | `fixed_size=WxH` with decimal numbers sets the fixed width W and height H |
| Sdl2.FixedSizeDispatch | src/video_display/vulkan_sdl2.cpp:475 | every token starting with "fixed_size" goes to the fixed-size branch |
| Sdl2.FixedSizeOfNumbers | src/video_display/vulkan_sdl2.cpp:477-482 | the text after '=' splits at 'x' into the width and the height |
| Sdl2.ParseInitOptions | src/video_display/vulkan_sdl2.cpp:441-509 | audio is refused before anything else; otherwise the result is the option loop over the ':'-tokens of the string (empty when missing) |
| Sdl2.WindowParameters | src/video_display/vulkan_sdl2.cpp:121-130 | vsync is on; a minimized window reports 0 x 0 and so counts as minimized; otherwise the drawable size |
| Sdl2.Sdl2Display.constructor | src/video_display/vulkan_sdl2.cpp:132-184 | the display starts from the parsed options and the engine's transfer images, with no exit requested and an empty description |
| Sdl2.Sdl2Display.ProcessKey | src/video_display/vulkan_sdl2.cpp:247-264 | 'd' toggles deinterlacing, 'f' toggles fullscreen and asks SDL for it, 'q' exits with status 0; exactly these three are handled and other keys change nothing |
| Sdl2.Sdl2Display.Putf | src/video_display/vulkan_sdl2.cpp:633-669 | a discarded frame's image goes back to the engine; a null frame requests exit and queues an empty image; any other frame sets the current description and is queued, and with deinterlacing on its image gets `vc_deinterlace` as its preprocessing callback while no other image's callback changes; 0 is always returned |
| Video.VideoFrame.UpdateDescription | src/video_display/vulkan_sdl2.cpp:195-204 | the frame takes the codec, rate, interlacing and tile count, and the first `tile_count` tiles take the width and height; other tiles are unchanged |
| Testcard.CadenceSums | src/video_capture/testcard.c:96-98 | each five-frame cadence adds up to 8008, 4004 or 2002 samples, i.e. exactly 48000 samples per second of 29.97, 59.94 and 119.88 fps video |
| Testcard.ConfigureAudioAsWritten | src/video_capture/testcard.c:131-162 | a single sample count exactly when 48000·vden is divisible by vnum, the five-frame cadence for the three 1001-denominator rates, no audio otherwise; every cadence returned delivers exactly 48000 samples per second |
| Testcard.ConfigureAudio | src/video_capture/testcard.c:131-162 | the same configuration with rates under one frame per second refused; every cadence it returns keeps each frame's audio within the one-second buffer |
| Testcard.FrameWithinBuffer | src/video_capture/testcard.c:87 | a frame of at most one second of samples occupies at most `AUDIO_BUFFER_SIZE` bytes |
| Testcard.StepInBuffer | src/video_capture/testcard.c:614-620 | a grab of at most a second followed by one of at most a second keeps the audio pointer in the first half of the doubled buffer and the data inside the allocation |
| Testcard.AudioGrabber.constructor | src/video_capture/testcard.c:131-137 | the audio pointer starts at the start of the buffer with no data handed out |
| Testcard.AudioGrabber.GrabAudio | src/video_capture/testcard.c:614-620 | the audio pointer moves past the frame's samples and wraps back by one buffer once past it, the cadence index advances modulo `count`, the new length is the next frame's; with a cadence that fits, the data stays inside the buffer |
| Testcard.HalfFpsOverrunsBuffer | src/video_capture/testcard.c:140-142 | at 1/2 fps the as-written configuration gives 96000 samples per frame, which after one grab hands out audio ending a whole buffer beyond the allocation; the corrected configuration refuses that rate |
| Testcard.ConfiguredCadenceStaysInBuffer | src/video_capture/testcard.c:614-620 | for every rate the corrected configuration accepts, each grab keeps the audio inside the buffer |
| Testcard.ParseFps | src/video_capture/testcard.c:238-255 | the rate is the `strtod` prefix; no suffix is progressive; a suffix is accepted only for progressive, segmented-frame or interlaced-merged, and merged halves the rate |
| Testcard.FiftyInterlaced | src/video_capture/testcard.c:250-252 | "50i" parses as 25 interlaced-merged frames per second |
| Testcard.ParseFormat | src/video_capture/testcard.c:257-302 | a non-zero result has a non-zero width·height product, a rate and interlacing as parsed from the third token, a known codec with a conversion, and one tile; any missing token or failed check gives the zero description |
| Testcard.ParseFormatAccepts | src/video_capture/testcard.c:257-302 | four tokens that pass every check are accepted: the result is a one-tile description, not the zero one |
| Testcard.NegativeSideRefused | src/video_capture/testcard.c:265-274 | a negative width is clamped to 0, so the zero-area format is refused |
| Testcard.PatternName | src/video_capture/testcard.c:497-499 | the pattern name is a prefix of the option value of at most 127 characters |
| Testcard.ModeKeepsCodec | src/video_capture/testcard.c:503-506 | "mode=" replaces the whole description with the parsed mode but keeps the pixel format chosen so far |
| Testcard.SizeSetsBothSides | src/video_capture/testcard.c:507-509 | "size=WxH" sets the width to W and the height to H and changes nothing else |
| Testcard.FirstBadOptionFails | src/video_capture/testcard.c:481-521 | an option that fails after options that were all accepted makes the whole option loop fail |
| Testcard.UnknownOptionFails | src/video_capture/testcard.c:516-518 | a token with none of the known keys fails, whatever was configured before |
| Testcard.Init | src/video_capture/testcard.c:457-571 | "help" and "fullhelp" (and only they) answer with help; a started capture always has a usable format (codec, non-zero sides, positive rate) and no strip request; it carries an audio cadence exactly when audio was asked for, and that cadence delivers 48000 samples per second at the converted rate (and, corrected, fits the buffer) |
| Testcard.AudioFlagAddsOnlyCadence | src/video_capture/testcard.c:566-571 | asking for audio fails every initialisation that fails without it, and turns one that starts into a start with the rate's cadence, or a failure when the rate has none |
| Testcard.InitLoop | src/video_capture/testcard.c:457-571 | `testcard_init` on the format string, as the source runs it, ends in exactly the outcome of `Init` |
| Testcard.OptionsLoop | src/video_capture/testcard.c:481-521 | the token-by-token option loop ends in exactly the outcome of `RunOptions`: the configuration after every option, or failure at the first refused one |
| Testcard.Probe | src/video_capture/testcard.c:651-703 | the mode list is "Default" followed by all 18 combinations of pixel format, size and rate, format varying slowest and rate fastest |
| Testcard.ModesDistinct | src/video_capture/testcard.c:680-701 | different choices of format, size and rate occupy different positions and give different modes |
| DShow.Positional | src/video_capture/DirectShowGrabber.cpp:524-593 | a pixel format chosen by name is never "none"; after a mode number the third token is accepted exactly when it is "RGB" and later tokens change nothing; with the corrected check an accepted width or height is the positive `atoi` value |
| DShow.ProcessArgs | src/video_capture/DirectShowGrabber.cpp:519-618 | a format string holding `=` is parsed as key=value tokens, which never fail |
| DShow.RunPositionalKeepsPositive | src/video_capture/DirectShowGrabber.cpp:557-587 | with the corrected checks, every run of positional tokens from a format with positive sides and rate ends with positive sides and rate |
| DShow.ProcessArgsPositive | src/video_capture/DirectShowGrabber.cpp:524-593 | the corrected positional syntax never produces a zero or negative width, height or rate |
| DShow.FullPositionalFormat | src/video_capture/DirectShowGrabber.cpp:524-593 | "device:codec:width:height:fps" with a known codec name and positive numbers selects that device and sets mode −1, the codec, the width, the height and the rate |
| DShow.NegativeWidthAccepted | src/video_capture/DirectShowGrabber.cpp:566-570 | as written a width token that `atoi` reads as −n (0 < n < 2^32) passes the `<= 0` test on the `unsigned` field and becomes 2^32 − n |
| DShow.NegativeWidthRefused | src/video_capture/DirectShowGrabber.cpp:566-570 | the corrected check refuses every negative width |
| DShow.DeviceByNumber | src/video_capture/DirectShowGrabber.cpp:529-531 | "DeviceN" selects device number N |
| DShow.ProcessArgsLoop | src/video_capture/DirectShowGrabber.cpp:519-618 | the token loops end in exactly the outcome of `ProcessArgs` |
| DShow.PositionalLoop | src/video_capture/DirectShowGrabber.cpp:524-593 | the positional `strtok` loop ends in exactly `RunPositional` from the defaults at position 1: the arguments after every token, or failure at the first refused one |
| DShow.KeyValueLoop | src/video_capture/DirectShowGrabber.cpp:595-614 | the key=value `strtok` loop ends in exactly `RunKeyValue` from the defaults; it never fails |
| DShow.ModeToken | src/video_capture/DirectShowGrabber.cpp:539-556 | a second token accepted as a pixel format name (UltraGrid name, else DirectShow subtype name) never leaves the pixel format "none" |
| DShow.SideValue | src/video_capture/DirectShowGrabber.cpp:566-578 | a side token is refused exactly when the check refuses its `atoi` value; an accepted one is stored as the `unsigned` value, and with the corrected check it is the positive `atoi` value itself |
| DShow.LocateSubtype | src/video_capture/DirectShowGrabber.cpp:1324-1355 | the index found holds the GUID or is the final `GUID_NULL` entry, and no earlier entry holds the GUID |
| DShow.GuidsDistinct | src/video_capture/DirectShowGrabber.cpp:1290-1307 | no GUID appears twice in `BitCountMap` |
| DShow.LocateFindsEntry | src/video_capture/DirectShowGrabber.cpp:1324-1355 | looking up the GUID of any entry finds that entry |
| DShow.UgCodec | src/video_capture/DirectShowGrabber.cpp:1310-1313 | a pixel format is only returned for a GUID the table lists |
| DShow.UnlistedGuidHasNoCodec | src/video_capture/DirectShowGrabber.cpp:1310-1313 | a GUID absent from the table stops at the `GUID_NULL` entry and has no pixel format |
| DShow.GetUgFromSubtypeName | src/video_capture/DirectShowGrabber.cpp:1315-1322 | the codec of the first entry with that name, and none when no entry has the name |
| DShow.NamesDistinct | src/video_capture/DirectShowGrabber.cpp:1290-1307 | no subtype name appears twice in `BitCountMap` |
| DShow.NameLookupFindsEntry | src/video_capture/DirectShowGrabber.cpp:1315-1322 | the name of any entry gives that entry's pixel format |
| DShow.FourCC | src/video_capture/DirectShowGrabber.cpp:1371-1375 | the bytes of `Data1` in memory order up to the first NUL: character i is byte i, none is NUL, and a name shorter than four stops at a NUL byte |
| DShow.SubtypeName | src/video_capture/DirectShowGrabber.cpp:1369-1383 | the FourCC of `Data1` for a subtype the table does not list, the UltraGrid codec name when the entry has a codec, and the table's own name otherwise |
| DShow.Yuy2IsYuyv | src/video_capture/DirectShowGrabber.cpp:1369-1383 | the YUY2 subtype maps to YUYV and is named by that codec's name |
| DShow.Flipped | src/video_capture/DirectShowGrabber.cpp:158-169 | the flipped picture has as many bytes as the rows it copies |
| DShow.FlippedRow | src/video_capture/DirectShowGrabber.cpp:158-169 | row j of the flipped picture is row height − 1 − j of the sample, passed through the row copy |
| DShow.BytesIsProduct | src/video_capture/DirectShowGrabber.cpp:159-169 | the bytes of `rows` rows counted row by row are `rows × linesize`, the offsets the copy loop computes |
| DShow.FlipRows | src/video_capture/DirectShowGrabber.cpp:159-169 | the row loop builds exactly the flipped picture `Flipped`, whose rows `FlippedRow` describes, and its length is height × linesize bytes |
| DShow.Grabber.constructor | src/video_capture/DirectShowGrabber.cpp:228-237 | both buffers empty, no buffer waiting, no exit request, the critical section free |
| DShow.Grabber.BufferCB | src/video_capture/DirectShowGrabber.cpp:139-186 | an empty sample changes nothing; a failed `realloc` empties the grab buffer and (as written) leaves the critical section held; otherwise the grab buffer takes the sample, BGR and RGBA pictures turned bottom row first, and the grabber is woken only when no buffer was already waiting |
| DShow.Grabber.Grab | src/video_capture/DirectShowGrabber.cpp:1187-1245 | waits while the section is held or no buffer has arrived; returns nothing once asked to exit; otherwise the buffers and their lengths swap, the waiting flag clears, the frame count grows by one and the frame's data is the new return buffer |
| DShow.Grabber.ShouldExit | src/video_capture/DirectShowGrabber.cpp:778-784 | when the section can be entered, the exit flag is set and the grabber is woken once |
| DShow.Clamp255 | src/video_capture/DirectShowGrabber.cpp:1045-1062 | the result lies in 0..255, equals values already in range, and is 0 below and 255 above |
| DShow.BuildClampTable | src/video_capture/DirectShowGrabber.cpp:1052-1062 | entries 0..276 hold 0, 277..530 hold 1..254, 531..810 hold 255; entry 811 is never written as written and holds 255 when corrected, so the corrected table maps every value in MIN_YUV_CLAMP..MAX_YUV_CLAMP to its clamp |
| DShow.ChannelRanges | src/video_capture/DirectShowGrabber.cpp:1165-1173 | the three values looked up lie within −277..534, −171..432 and −223..481 |
| DShow.ClampIndexAsWritten | src/video_capture/DirectShowGrabber.cpp:1170 | for Y = U = 0 the index is −277: before the table, and one short of it even with the `MIN_YUV_CLAMP` offset |
| DShow.ConvertYuvRgb | src/video_capture/DirectShowGrabber.cpp:1165-1173 | three bytes, each the channel value clamped to 0..255 |
| DShow.ConvertGroup | src/video_capture/DirectShowGrabber.cpp:1179-1180 | a group of four YUYV bytes becomes two RGB pixels |
| DShow.ConvertAllLength | src/video_capture/DirectShowGrabber.cpp:1175-1185 | six output bytes for every four input bytes |
| DShow.ConvertYuyvRgb | src/video_capture/DirectShowGrabber.cpp:1175-1185 | the group loop produces exactly the group-by-group conversion of the whole input, 6 bytes per 4 |
| Postprocess.SplitItem | src/vo_postprocess.c:95-100 | the module name holds no `:`; an item with a `:` is the name, the `:` and the options; an item without one is the name with empty options |
| Postprocess.SplitItemOfJoin | src/vo_postprocess.c:95-100 | splitting "name:options" for a name without `:` gives back the name and the options |
| Postprocess.LoadedFilter | src/vo_postprocess.c:101-116 | the appended filter carries the callbacks found for the item's module and the state its `init` returned for the item's options, with no frame and no configuration yet |
| Postprocess.Load | src/vo_postprocess.c:88-122 | the load succeeds exactly when every item's module is known and initialises; then there is one filter per item, in order, each the item's loaded filter |
| CStrings.NoTokensOnlyDelimiters | src/vo_postprocess.c:94 | `strtok_r` yields no token exactly when the string holds only delimiters |
| Postprocess.OneFailureAbortsLoad | src/vo_postprocess.c:101-115 | one unknown module or one failed `init` anywhere makes the whole load fail |
| Postprocess.Inputs | src/vo_postprocess.c:155-171 | one description per filter: the chain's input for the first, the previous filter's reported output for every later one |
| Postprocess.ConfiguredAll | src/vo_postprocess.c:155-171 | after a full pass every filter records the description it was given, and keeps its callbacks, state and frame |
| Postprocess.ChainOut | src/vo_postprocess.c:258-259 | the chain reports what the last filter reports for the description it was last given |
| Postprocess.ReconfiguredChainOut | src/vo_postprocess.c:146-180 | after a full pass the chain's output is the last filter's output for the description threaded through all earlier filters; after a successful pass over two or more filters it is merged with one frame per frame |
| Postprocess.Destination | src/vo_postprocess.c:219-223 | each filter writes into the next filter's frame, and the last one into `out` |
| Postprocess.CallAt | src/vo_postprocess.c:217-234 | filter k is called with its own state, the previous destination (the caller's `in` for the first), its destination, and that destination's line size, or the requested pitch for the last filter |
| Postprocess.QueriedPosition | src/vo_postprocess.c:268-282 | the last filter answers for a one-filter chain or for the tiling-mode property, the first one answers for codecs in a longer chain, and no filter otherwise |
| Postprocess.PropertyArgument | src/vo_postprocess.c:270 | as written the filter's callback receives the chain's wrapper record and never the filter's own state; corrected, it receives the state |
| Postprocess.Chain.constructor | src/vo_postprocess.c:135-136 | a new chain has no filters |
| Postprocess.Chain.LoadItems | src/vo_postprocess.c:94-119 | the item loop succeeds exactly when the whole load does, and then appends exactly the loaded filters |
| Postprocess.Init | src/vo_postprocess.c:124-144 | NULL for a missing configuration, "help" or "fullhelp"; otherwise NULL exactly when one of the `,`-separated items does not load, and a fresh chain of the loaded filters when all do |
| Postprocess.Reconfigure | src/vo_postprocess.c:146-180 | FALSE for a NULL state; otherwise TRUE exactly when every filter accepts its threaded description and, in a chain of several, every filter is simple; filters reached record their description, the rest are unchanged |
| Postprocess.ConfigureFilters | src/vo_postprocess.c:155-171 | the loop reports acceptance exactly when every filter accepts its threaded description, and then whether one filter is not simple; filters reached record their description, the rest are unchanged |
| Postprocess.Getf | src/vo_postprocess.c:182-203 | NULL for a NULL state or an empty chain or as soon as a filter has no frame; otherwise the first filter's frame; filters reached store the frame they fetched |
| Postprocess.Process | src/vo_postprocess.c:209-237 | FALSE for a NULL state; a NULL dereference for an empty chain; otherwise the calls made are exactly the chain's calls in order, every call but the last succeeded, and the result is TRUE exactly when all filters were called and the last succeeded |
| Postprocess.GetOutDesc | src/vo_postprocess.c:253-260 | a NULL state leaves the description as it was; an empty chain dereferences NULL; otherwise the last filter answers |
| Postprocess.GetProperty | src/vo_postprocess.c:262-283 | false for a NULL state or when no filter is queried; an empty chain asked for the tiling mode or the codecs dereferences NULL; otherwise the queried filter's answer for the argument passed |
| Postprocess.EmptyChainConfigurations | src/vo_postprocess.c:88-122 | the load yields a chain with no filters exactly when the configuration holds nothing but `,`, whatever modules exist |
| H264Sdp.OptionsFailure | src/video_rxtx/h264_sdp.cpp:79-81 | nothing is thrown exactly when `sdp_set_options` returns 0; a return of 1 throws 0 and any other non-zero return throws 1 |
| H264Sdp.AddVideoOutcome | src/video_rxtx/h264_sdp.cpp:117-126 | return code 0 announces the codec, exactly −2 throws the unsupported-codec error, and every other code aborts |
| H264Sdp.Transmissions | src/video_rxtx/h264_sdp.cpp:167-179 | one send of the frame per connection, to device i in turn; JPEG exactly when there is a single connection and the codec is not H.264 |
| H264Sdp.FrameEffect | src/video_rxtx/h264_sdp.cpp:134-192 | an uncompressed frame only sets the compression latch and requests the change the first time; an opaque frame never requests it; a codec once announced never changes, and is only ever announced from an opaque frame's codec; a frame is transmitted exactly when it is opaque, there are connections and its codec is (or has just been successfully announced as) the configured one |
| H264Sdp.CompressChangeAtMostOnce | src/video_rxtx/h264_sdp.cpp:136-150 | over any sequence of frames the compression change is requested at most once, and never once it has been requested |
| H264Sdp.LatchedCodecNeverChanges | src/video_rxtx/h264_sdp.cpp:151-165 | once a codec is announced it stays the configured codec for the rest of any sequence of frames |
| H264Sdp.TransmittedFramesMatchLatch | src/video_rxtx/h264_sdp.cpp:134-179 | every frame transmitted over a sequence is one of its frames, opaque, and of the codec finally configured |
| H264Sdp.AddressStep | src/video_rxtx/h264_sdp.cpp:105-115 | the saved address becomes the new one, and a change-address message is sent exactly when it differs from the saved one |
| H264Sdp.RepeatedAddressIsSilent | src/video_rxtx/h264_sdp.cpp:105-115 | repeating the same address sends nothing the second time |
| H264Sdp.SdpSender.constructor | src/video_rxtx/h264_sdp.cpp:72-78 | the saved address is the requested receiver, the saved port the transmit port, no compression change sent and no codec configured |
| H264Sdp.SdpSender.Create | src/video_rxtx/h264_sdp.cpp:72-82 | construction fails, with the value thrown, exactly when `sdp_set_options` returns non-zero; otherwise a fresh sender in its initial state |
| H264Sdp.SdpSender.ChangeAddress | src/video_rxtx/h264_sdp.cpp:105-115 | the saved address and the events follow `AddressStep`; nothing else changes |
| H264Sdp.SdpSender.SendFrame | src/video_rxtx/h264_sdp.cpp:134-192 | the new latch and the events appended are exactly `FrameEffect` of the old latch; the address, port, connections and mode are unchanged |
| H264Sdp.SdpSender.Transmit | src/video_rxtx/h264_sdp.cpp:167-179 | the sends of one frame are exactly `Transmissions`: one H.264 or JPEG send on a single connection, otherwise one H.264 send per connection in device order |
| VkTypes.SameDescriptionIsEquality | src/video_display/vulkan_transfer_image.hpp:54-62 | two descriptions compare equal exactly when width, height and format all agree, i.e. when they are the same value, and `!=` is the negation |
| VkTypes.FormatClassesDisjoint | src/video_display/vulkan_display.h:24-32 | no format is both Y'CbCr and block-compressed, and the RGBA formats the display uses are neither |
| VulkanContext.MinimizedAgreesWithoutOverflow | src/video_display/vulkan_context.hpp:78-80 | while width·height fits in 32 bits, the source's test and "a side is zero" agree |
| VulkanContext.MinimizedWrapsAt65536 | src/video_display/vulkan_context.hpp:78-80 | a 65536 x 65536 window counts as minimized as written, though neither side is zero |
| VulkanContext.MinimizedAsWrittenIsWeaker | src/video_display/vulkan_context.hpp:78-80 | every window with a zero side is minimized for the source too: the wrap only adds false "minimized" answers |
| VulkanContext.DefaultImageViewCreateInfo | src/video_display/vulkan_context.hpp:101-107 | a 2D colour view of the given format over one mip level and one layer, from level and layer 0 |
| VulkanContext.CheckDeviceExtensions | src/video_display/vulkan_context.cpp:80-98 | true exactly when every required extension is offered; with error propagation a missing extension fails the call, naming the first one missing |
| VulkanContext.GetQueueFamilyIndex | src/video_display/vulkan_context.cpp:100-118 | the first family that is graphics capable (and can present, when there is a surface), or `no_queue_index_found` exactly when none is |
| VulkanContext.IsGpuSuitable | src/video_display/vulkan_context.cpp:122-133 | suitable exactly when the swapchain extension is offered and some family is usable; an error only for a missing extension with propagation |
| VulkanContext.FirstSuitable | src/video_display/vulkan_context.cpp:138-147 | the first suitable GPU of the pass's device type, or none exactly when no GPU of that type is suitable |
| VulkanContext.ChooseSuitableGpu | src/video_display/vulkan_context.cpp:135-170 | "No suitable gpu found." exactly when no GPU is suitable; otherwise a suitable GPU, a discrete one if any is suitable, else an integrated one if any is, each the first of its kind in enumeration order |
| VulkanContext.SortGpus | src/video_display/vulkan_context.cpp:183 | the sorted list is a permutation of the GPUs in ascending (name, device) order |
| VulkanContext.ChooseGpuByIndex | src/video_display/vulkan_context.cpp:172-186 | "GPU index is not valid." exactly when the index is past the list; otherwise one of the GPUs, the one at that position in name order, with no smaller one after it and no larger one before |
| VulkanContext.GetCompositeAlpha | src/video_display/vulkan_context.cpp:188-194 | the lowest bit set in the supported composite-alpha mask |
| VulkanContext.Clamp | src/video_display/vulkan_context.cpp:395-400 | `std::clamp`: the value when it lies in range, the nearer bound otherwise |
| VulkanContext.ClampExtent | src/video_display/vulkan_context.cpp:395-400 | each side lies within the surface's minimum and maximum extent, and a side already in range is kept |
| VulkanContext.ImageCount | src/video_display/vulkan_context.cpp:402-405 | at least two images and the surface's minimum, capped by its maximum when it has one |
| VulkanContext.ChoosePresentMode | src/video_display/vulkan_context.cpp:350-371 | an offered mode: the preferred one when offered, else its alternative when offered, else the first offered |
| VulkanContext.PresentModeFallbacks | src/video_display/vulkan_context.cpp:360-362 | Immediate falls back to Mailbox and every other preference to Fifo |
| VulkanContext.ChooseSurfaceFormat | src/video_display/vulkan_context.cpp:373-386 | an offered format: B8G8R8A8 sRGB with the sRGB non-linear space exactly when it is offered, else the first |
| VulkanContext.AcquireNextSwapchainImage | src/video_display/vulkan_context.cpp:503-518 | the image index on success; `swapchain_image_out_of_date` exactly for a suboptimal or out-of-date swapchain; `swapchain_image_timeout` exactly on timeout; an error for every other result |
| VulkanContext.Context.constructor | src/video_display/vulkan_context.cpp:456-458 | the preferred present mode and window size are the ones given, before any swapchain exists |
| VulkanContext.Context.GetWindowParameters | src/video_display/vulkan_context.hpp:194-196 | the current (clamped) window size |
| VulkanContext.Context.SelectPresentMode | src/video_display/vulkan_context.cpp:350-371 | the stored mode is the chosen present mode; nothing else changes |
| VulkanContext.Context.SelectSurfaceFormat | src/video_display/vulkan_context.cpp:373-386 | the stored format is the chosen surface format; nothing else changes |
| VulkanContext.Context.CreateSwapChain | src/video_display/vulkan_context.cpp:388-425 | the capabilities, chosen mode and format, clamped window size, image count and lowest composite-alpha bit are stored, and a new swapchain is created |
| VulkanContext.Context.RecreateSwapchain | src/video_display/vulkan_context.cpp:486-501 | the new window size, clamped, with a new swapchain created from the surface's current answers |
| VulkanContextLegacy.BoolToVkResult | src/video_display/vulkan_context.h:26-28 | success exactly for true; false becomes `eErrorFeatureNotPresent` |
| VulkanContextLegacy.ResultToVkResult | src/video_display/vulkan_context.h:30-32 | a result code passes through unchanged |
| VulkanContextLegacy.CheckNoExceptions | src/video_display/vulkan_context.h:50-57 | the caller goes on exactly when the check succeeds; otherwise it returns that result and the message is recorded |
| VulkanContextLegacy.CheckWithExceptions | src/video_display/vulkan_context.h:80 | a failing check throws with its message; success goes on |
| VulkanContextLegacy.CheckModesAgree | src/video_display/vulkan_context.h:50-80 | both error modes fail on the same results and report the same message |
| VulkanContextLegacy.PassResults | src/video_display/vulkan_context.h:43-48 | a chain of passed results is successful exactly when every step is, and otherwise returns one of the failing results |
| VulkanContextLegacy.PassResultsStopsAtFailure | src/video_display/vulkan_context.h:43-48 | after successful steps the first failure is the result, whatever follows it |
| VulkanContextLegacy.GetWindowParameters | src/video_display/vulkan_context.h:212-214 | the swapchain size together with the vsync setting |
| TransferImage.AddPadding | src/video_display/vulkan_transfer_image.cpp:44-50 | the smallest multiple of the alignment not below the size: a multiple, at least the size, less than size + alignment, and the size itself when already aligned |
| TransferImage.FlagsPresentIsSubset | src/video_display/vulkan_transfer_image.cpp:57-59 | the required flags are present exactly when they are a subset of the provided ones; no requirement is always met |
| TransferImage.GetMemoryType | src/video_display/vulkan_transfer_image.cpp:61-83 | the lowest allowed type with both the requested and the optional properties when there is one; otherwise the highest allowed type with the requested ones; the "No available memory" error exactly when no allowed type has them |
| TransferImage.DeviceLocalNeedsAnyType | src/video_display/vulkan_transfer_image.cpp:134-138 | device-local images request no property, so they fail only when no memory type is allowed at all |
| TransferImage.Image2D.constructor | src/video_display/vulkan_transfer_image.hpp:79-92 | all handles null, an empty size and an undefined format |
| TransferImage.Image2D.GetDescription | src/video_display/vulkan_transfer_image.hpp:106 | the image's size and format |
| TransferImage.Image2D.InitWith | src/video_display/vulkan_transfer_image.cpp:142-180 | the description, access and initial layout (pre-initialised or undefined) are recorded, the view cleared, the image created with the tiling asked for, and memory of the selected type bound; the error exactly when no allowed type has the requested properties |
| TransferImage.Image2D.CreateImage | src/video_display/vulkan_transfer_image.cpp:146-171 | the description, access, initial layout and tiling are recorded and the view cleared |
| TransferImage.Image2D.AllocateMemory | src/video_display/vulkan_transfer_image.cpp:173-179 | the memory is allocated and bound with the type `get_memory_type` selects, or the error when none fits |
| TransferImage.Image2D.Init | src/video_display/vulkan_transfer_image.cpp:120-140 | host-local images are linear and need host-visible coherent memory (cached preferred); device-local ones are optimal and prefer device-local memory; fails exactly when the location's requirement cannot be met |
| TransferImage.Image2D.CreateView | src/video_display/vulkan_transfer_image.cpp:182-191 | an image without a view gets the new one |
| TransferImage.Image2D.Destroy | src/video_display/vulkan_transfer_image.cpp:193-202 | view and image become null |
| TransferImage.TransferImageImpl.constructor | src/video_display/vulkan_transfer_image.hpp:109-122 | no id (`NO_ID`), nothing mapped, pitch 0, no callback |
| TransferImage.TransferImageImpl.Init | src/video_display/vulkan_transfer_image.cpp:114-118 | the id is set and a fence created |
| TransferImage.TransferImageImpl.GetDescription | src/video_display/vulkan_transfer_image.hpp:134 | the description of the underlying image |
| TransferImage.TransferImageImpl.Recreate | src/video_display/vulkan_transfer_image.cpp:204-223 | the new description on a pre-initialised, linear, host-writable image; fails with the memory error when no host memory fits or with "Image memory cannot be mapped." when mapping fails; on success the mapped bytes and row pitch are the mapping's; id and callback unchanged |
| TransferImage.TransferImageImpl.CreateMemoryBarrier | src/video_display/vulkan_transfer_image.cpp:225-246 | the barrier goes from the recorded layout and access to the requested ones, for the image's colour aspect, and the requested ones become the recorded ones |
| TransferImage.TransferImageImpl.RenderBarriers | src/video_display/vulkan_transfer_image.cpp:225-246 | two successive barriers chain: the second starts where the first ended |
| TransferImage.TransferImageImpl.Preprocess | src/video_display/vulkan_transfer_image.cpp:272-278 | a set callback is applied once to the image's bytes and then cleared; without one nothing changes |
| TransferImage.TransferImageImpl.PreprocessTwice | src/video_display/vulkan_transfer_image.cpp:272-278 | a second call before a new callback is set changes nothing: the callback runs at most once |
| TransferImage.TransferImageImpl.Destroy | src/video_display/vulkan_transfer_image.cpp:280-284 | memory unmapped, view, image and fence null |
| TransferImage.MakeHandle | src/video_display/vulkan_transfer_image.hpp:169-173 | the handle points at the given image, which must have an id |
| TransferImage.GetId | src/video_display/vulkan_transfer_image.hpp:175-178 | the id of the image the handle points at |
| TransferImage.GetMemory | src/video_display/vulkan_transfer_image.hpp:180-183 | the mapped bytes of the image the handle points at |
| TransferImage.GetRowPitch | src/video_display/vulkan_transfer_image.hpp:190-193 | the row pitch of the image the handle points at |
| TransferImage.GetHandleDescription | src/video_display/vulkan_transfer_image.hpp:185-188 | the description of the image the handle points at |
| TransferImage.GetSize | src/video_display/vulkan_transfer_image.hpp:195-197 | the size of the image the handle points at |
| TransferImage.SetProcessFunction | src/video_display/vulkan_transfer_image.hpp:203-205 | the callback is stored on the image the handle points at |
| TransferImage.IsImageDescriptionSupported | src/video_display/vulkan_transfer_image.cpp:92-112 | unsupported format gives false, any other failed query the "Error queriing image properties." error; otherwise supported exactly when both sides are within the maximum extent |
| TransferImageLegacy.SameDescriptionIsEquality | src/video_display/vulkan_transfer_image.h:17-25 | two descriptions compare equal exactly when they are the same value |
| TransferImageLegacy.LegacyTransferImage.constructor | src/video_display/vulkan_transfer_image.h:80-82 | the given id, fence not set, no callback, empty description |
| TransferImageLegacy.LegacyTransferImage.GetDescription | src/video_display/vulkan_transfer_image.h:58 | the stored description |
| TransferImageLegacy.MakeImage | src/video_display/vulkan_transfer_image.h:95-100 | the handle points at the image, which must have an id, and any callback left on it is cleared |
| TransferImageLegacy.GetId | src/video_display/vulkan_transfer_image.h:102-105 | the id of the image the handle points at |
| TransferImageLegacy.GetImageDescription | src/video_display/vulkan_transfer_image.h:112-115 | the description of the image the handle points at |
| TransferImageLegacy.GetSize | src/video_display/vulkan_transfer_image.h:122-124 | the size of the image the handle points at |
| TransferImageLegacy.GetRowPitch | src/video_display/vulkan_transfer_image.h:117-120 | the row pitch of the image the handle points at |
| TransferImageLegacy.SetProcessFunction | src/video_display/vulkan_transfer_image.h:130-132 | the callback is stored on the image |
| TransferImageLegacy.Preprocess | src/video_display/vulkan_transfer_image.h:134-138 | a set callback is applied to the image's bytes and kept |
| TransferImageLegacy.PreprocessTwice | src/video_display/vulkan_transfer_image.h:134-138 | two calls apply the callback twice, unlike the newer engine |
| Display.GetPresentMode | src/video_display/vulkan/vulkan_display.cpp:56-62 | a FIFO mode exactly when vsync is on, a tearing mode exactly when tearing is permitted, so each of the four combinations has its own mode |
| Display.AllocateSets | src/video_display/vulkan/vulkan_display.cpp:115-125 | allocating `count` sets of one layout adds `count` sets and `count` descriptors |
| Display.AllocatedSets | src/video_display/vulkan/vulkan_display.cpp:446-492 | what `reconfigure` allocates always fits the pool `create_descriptor_pool` made for the frame count, uses it up exactly with format conversion, and holds one set per frame and no storage image without it |
| Display.ConvertedImages | src/video_display/vulkan/vulkan_display.cpp:470-480 | one converted `R8G8B8A8Unorm` image per frame, each of the stream's size |
| Display.LeadingSuccesses | src/video_display/vulkan/vulkan_display.cpp:511-526 | the number of signalled fences before the first one that is not signalled |
| Display.AcquireOutcomeSound | src/video_display/vulkan/vulkan_display.cpp:549-568 | a frame never renders to an out-of-date or timed-out index; it gives up with "Cannot acquire swapchain image" only after all four acquisitions came back out of date or timed out; it stops for a minimized window only when one was seen |
| Display.YCbCrMessage | src/video_display/vulkan/vulkan_display.cpp:393-400 | the message always starts with "YCbCr formats are not supported." and names Vulkan 1.1 exactly when the instance is Vulkan 1.0 |
| Display.InitialQueues | src/video_display/vulkan/vulkan_display.cpp:241-255 | after `init` every image id and every frame slot is in exactly one place |
| Display.TakeFromList | src/video_display/vulkan/vulkan_display.cpp:376-379 | taking the back of the provider's list keeps every image in one place, and the id is a transfer image |
| Display.TakeFromQueue | src/video_display/vulkan/vulkan_display.cpp:382-384 | taking the front of the available queue keeps every image in one place, and the id is a transfer image |
| Display.TakeNew | src/video_display/vulkan/vulkan_display.cpp:385-387 | a new transfer image with the next id keeps every image, including the new one, in one place |
| Display.ProviderLoses | src/video_display/vulkan/vulkan_display.cpp:405-408 | an image whose recreation throws is lost, and the bookkeeping still holds |
| Display.ProviderQueues | src/video_display/vulkan/vulkan_display.cpp:421-428 | queuing an image in the filled queue keeps every image in one place |
| Display.ProviderReturns | src/video_display/vulkan/vulkan_display.cpp:430 | handing an image back to the provider's list keeps every image in one place |
| Display.DiscardFrontAccounted | src/video_display/vulkan/vulkan_display.cpp:64-72 | `discard_filled_image` keeps every image and slot in one place and never grows the filled queue |
| Display.TakeFilled | src/video_display/vulkan/vulkan_display.cpp:535-539 | the render thread dequeuing a filled image (or a null pointer) keeps every image in one place |
| Display.TakeSlot | src/video_display/vulkan/vulkan_display.cpp:532-533 | the render thread taking the back free slot keeps every slot in one place |
| Display.ReclaimFront | src/video_display/vulkan/vulkan_display.cpp:514-518 | a rendered frame whose fence is signalled gives its slot back to the free list and its image to the available queue, keeping both in one place |
| Display.Submit | src/video_display/vulkan/vulkan_display.cpp:609 | queuing the submitted frame behind its fence keeps every image and slot in one place |
| Display.RenderLosesSlot | src/video_display/vulkan/vulkan_display.cpp:537-538 | a slot the render thread drops is lost, and the bookkeeping still holds |
| Display.RenderLosesImage | src/video_display/vulkan/vulkan_display.cpp:553-562 | an image the render thread drops is lost, and the bookkeeping still holds |
| Display.RenderReturnsSlot | src/video_display/vulkan/vulkan_display.cpp:532-539 | a slot handed back to the free list keeps every slot in one place |
| Display.RenderReturnsImage | src/video_display/vulkan/vulkan_display.cpp:553-562 | an image handed back to the available queue keeps every image in one place |
| Display.HeldImageExists | src/video_display/vulkan/vulkan_display.cpp:374-388 | an image in either thread's hands is one of the transfer images |
| Display.EachImageInOnePlace | src/video_display/vulkan/vulkan_display.cpp:374-388 | every transfer image is in exactly one place |
| Display.LostSlotsBound | src/video_display/vulkan/vulkan_display.cpp:529-539 | free, rendered, held and lost slots add up to the frame count, so once all are lost none is free or rendered |
| Display.Reclaimed | src/video_display/vulkan/vulkan_display.cpp:511-526 | reclaiming `k` frames removes the `k` oldest rendered frames and appends their slots and images, in order, to the free list and the available queue |
| Display.MinimizedFrame | src/video_display/vulkan/vulkan_display.cpp:503-507 | a minimized window shows nothing, without an error, and the only change to the queues is the discard of the front filled image, which goes back through the available queue unless it is a null pointer |
| Display.FenceFailureFrame | src/video_display/vulkan/vulkan_display.cpp:509-525 | a fence that is neither signalled nor timed out makes the call throw, and the queues are left exactly as the reclaim loop left them: the frames whose fences were signalled before it are reclaimed and nothing else moves |
| Display.ReclaimedFrame | src/video_display/vulkan/vulkan_display.cpp:509-610 | once the reclaim loop ends without an error, the call's result and its new queues are what the rest of `display_queued_image` gives (`SlotOutcome`, with the queues `SlotQueues`) from the reclaimed queues, so the reclaimed frames, the slot taken and the frame shown or lost are all fixed |
| Display.SlotSkipped | src/video_display/vulkan/vulkan_display.cpp:528-530 | with no free slot the rest of the call changes nothing and shows nothing |
| Display.SlotStalled | src/video_display/vulkan/vulkan_display.cpp:529-539 | when a slot is free but the timed dequeue fails or yields a null pointer, nothing is shown; the filled queue loses its front, if any, and the slot goes back to the free list (as written it is lost) |
| Display.SlotHeldFrame | src/video_display/vulkan/vulkan_display.cpp:536-610 | holding the front filled image and the last free slot, the call shows the image exactly when the acquisition, the submission and the present succeed, and its new queues are `HeldQueues` of the held state |
| Display.HeldQueuesMoves | src/video_display/vulkan/vulkan_display.cpp:585-610 | a shown held frame becomes the newest rendered frame and leaves the filled queue alone; a frame handed back after a minimized retry, like a shown one, loses nothing |
| Display.NothingDisplayedOnceSlotsLost | src/video_display/vulkan/vulkan_display.cpp:529-539 | once every frame slot has been lost no call displays a frame or even takes a slot again |
| Display.VulkanDisplay.EachImageInOnePlace | src/video_display/vulkan/vulkan_display.cpp:374-388 | in a valid display every transfer image is in exactly one place |
| Display.VulkanDisplay.constructor | src/video_display/vulkan/vulkan_display.cpp:218-256 | `initial_image_count` images, all in the provider's list with an empty description, every slot free, no format-dependent state |
| Display.VulkanDisplay.Destroy | src/video_display/vulkan/vulkan_display.cpp:269-291 | the display is destroyed afterwards |
| Display.VulkanDisplay.Destructor | src/video_display/vulkan_display.hpp:171-175 | the destructor destroys exactly when `destroy` has not run |
| Display.VulkanDisplay.IsImageDescriptionSupported | src/video_display/vulkan/vulkan_display.cpp:293-299 | a Y'CbCr format the device cannot sample is unsupported; otherwise the transfer-image query decides, with its error |
| Display.VulkanDisplay.DiscardFilledImage | src/video_display/vulkan/vulkan_display.cpp:64-72 | the front of the filled queue is removed and, if not null, handed back through the available queue; the bookkeeping holds |
| Display.VulkanDisplay.AcquireTransferImage | src/video_display/vulkan/vulkan_display.cpp:374-388 | the back of the provider's list, else the front of the available queue, else a new image with the next id; the image passes into the provider's hands and nothing else moves |
| Display.VulkanDisplay.AcquireImage | src/video_display/vulkan/vulkan_display.cpp:390-411 | a Y'CbCr format the device cannot sample is refused with the message naming Vulkan 1.1 on a 1.0 instance; otherwise the provider holds an image of exactly the requested description, unless its recreation throws and the image is lost |
| Display.VulkanDisplay.TakeDescribedImage | src/video_display/vulkan/vulkan_display.cpp:402-410 | the provider holds an image of exactly the requested description and no image is lost, unless the recreation fails; then the error is the recreation's and the image is lost |
| Display.VulkanDisplay.RecreateTransferImage | src/video_display/vulkan/vulkan_display.cpp:404-408 | a successful recreation gives the image the new description and moves nothing; a failed one loses the image |
| Display.VulkanDisplay.QueueImage | src/video_display/vulkan/vulkan_display.cpp:419-441 | a frame that may not be dropped is queued; a discardable one is queued when there is room and otherwise goes back to the provider's list; the result is true exactly when the frame was discarded |
| Display.VulkanDisplay.QueueImageAsWritten | src/video_display/vulkan/vulkan_display.cpp:419-441 | as written the call answers true for every discardable frame, also one that was queued |
| Display.VulkanDisplay.DiscardImage | src/video_display/vulkan_display.hpp:199-203 | the provider returns the image to its own list |
| Display.VulkanDisplay.CopyAndQueueImage | src/video_display/vulkan/vulkan_display.cpp:413-417 | on success the image has the requested description and is at the back of the filled queue; the provider keeps nothing either way |
| Display.VulkanDisplay.ReclaimRenderedImages | src/video_display/vulkan/vulkan_display.cpp:509-527 | the frames with signalled fences are reclaimed, oldest first, up to the first unsignalled one; "Waiting for fence failed." exactly when that one did not time out |
| Display.VulkanDisplay.ReclaimOldest | src/video_display/vulkan/vulkan_display.cpp:514-518 | one more signalled frame is reclaimed: the queues are `Reclaimed` one frame further, its image queued as available and its slot freed |
| Display.VulkanDisplay.RebuildFormatDependent | src/video_display/vulkan/vulkan_display.cpp:444-493 | after a format change a Y'CbCr conversion exists exactly for Y'CbCr formats, conversion is enabled exactly for `R8G8B8A8Unorm`, with converted images of the stream's size, and the sets allocated are those `AllocatedSets` gives |
| Display.VulkanDisplay.ReconfigureAsWritten | src/video_display/vulkan/vulkan_display.cpp:443-500 | as written a stream that keeps `R8G8B8A8Unorm` and changes size keeps converted images of the old size |
| Display.VulkanDisplay.Reconfigure | src/video_display/vulkan/vulkan_display.cpp:443-500 | the render state always matches the new description; the render area is updated for the window and the new size |
| Display.VulkanDisplay.AcquireSwapchainImage | src/video_display/vulkan/vulkan_display.cpp:549-568 | the outcome is the reference `AcquireOutcome`; the filled queue loses its front only when the window was minimized meanwhile; the render area is the old one or one computed for a retry window |
| Display.VulkanDisplay.RetryAcquisition | src/video_display/vulkan/vulkan_display.cpp:549-568 | the retry loop ends with the outcome `AcquireOutcome` gives, without touching the queues; the render area is the old one or one computed for a retry window |
| Display.VulkanDisplay.RecreateForWindow | src/video_display/vulkan/vulkan_display.cpp:563-565 | after the swapchain is recreated the render area is the one computed for the retry window and the current description |
| Display.VulkanDisplay.WindowParametersChanged | src/video_display/vulkan/vulkan_display.cpp:613-620 | a size that differs and is not minimized recreates the swapchain (clamped to the surface) and updates the render area; anything else changes nothing |
| Display.VulkanDisplay.WindowParametersChangedFromWindow | src/video_display/vulkan_display.hpp:225-227 | the same with the parameters the window reports now |
| Display.VulkanDisplay.PopFreeSlot | src/video_display/vulkan/vulkan_display.cpp:532-533 | the back slot of the free list passes to the render thread |
| Display.VulkanDisplay.DequeueFilled | src/video_display/vulkan/vulkan_display.cpp:535-537 | an empty filled queue yields nothing and changes nothing; otherwise its front (possibly null) passes to the render thread |
| Display.VulkanDisplay.ReturnSlot | src/video_display/vulkan/vulkan_display.cpp:532-539 | the held slot goes back to the free list |
| Display.VulkanDisplay.DropSlot | src/video_display/vulkan/vulkan_display.cpp:537-539 | as written a frame that finds no filled image drops its slot for good |
| Display.VulkanDisplay.ReturnImage | src/video_display/vulkan/vulkan_display.cpp:553-562 | the held image goes back through the available queue |
| Display.VulkanDisplay.DropImage | src/video_display/vulkan/vulkan_display.cpp:553-562 | as written a window minimized during a retry drops the held image for good |
| Display.VulkanDisplay.PushRendered | src/video_display/vulkan/vulkan_display.cpp:609 | the submitted image and slot wait together, newest, in the rendered queue |
| Display.VulkanDisplay.ReleaseHeld | src/video_display/vulkan/vulkan_display.cpp:553-562 | a bail-out either hands the held image and slot back or drops both, leaving the render thread idle |
| Display.VulkanDisplay.DisplayFrame | src/video_display/vulkan/vulkan_display.cpp:502-611 | one call shows the front filled image exactly when the window is visible, the fences allow a free slot, a swapchain image is acquired, the queue submission succeeds and the present is tolerated, and throws exactly on a failed fence, a failed acquisition, a failed submission or an intolerable present; the new queues are given in full on every path (`FrameOutcome`): the discard of a minimized window, the frames reclaimed before a failed fence, and otherwise `SlotQueues` of the reclaimed queues; as written a frame that finds no filled image loses its slot |
| Display.VulkanDisplay.DisplayWithSlot | src/video_display/vulkan/vulkan_display.cpp:529-610 | with no free slot the frame is skipped and nothing changes; otherwise the outcome is `SlotOutcome`: shown exactly when a filled image waits, a swapchain image is acquired, the submission succeeds and the present is tolerated; an error exactly on a failed acquisition, submission or present; the new queues are `SlotQueues`: the slot and the shown frame queued behind its fence, the image and slot lost on an error, the slot handed back (as written lost) when no image arrives, and the next filled image discarded after a minimize during the retries |
| Display.VulkanDisplay.PrepareRenderState | src/video_display/vulkan/vulkan_display.cpp:544-547 | the render state is set up for the held image's description |
| Display.VulkanDisplay.FinishFrame | src/video_display/vulkan/vulkan_display.cpp:549-610 | the frame is queued behind its fence exactly when a swapchain image was acquired, the submission succeeded and the present is tolerated; a failed acquisition throws its message, a failed submission (line 585) throws before the present, an intolerable present throws, and on every error the image and the slot are lost; after a minimized retry both are handed back (as written lost), as `FrameEnd` gives |
| Display.VulkanDisplay.PresentHeldFrame | src/video_display/vulkan/vulkan_display.cpp:541-610 | the result follows `AcquireOutcome`, the submission result and the present result; a shown frame waits behind its fence as the newest rendered image; an error loses the image and the slot; a minimize during the retries discards the next filled image and hands both back (as written loses them); in all, the new queues are `HeldQueues` |
| DisplayLegacy.SizeOf | src/video_display/vulkan_context.h:88-101 | the older window parameters keep their width and height when read as a size |
| DisplayLegacy.SizesOf | src/video_display/vulkan_display.cpp:566 | every retry window is read as its size, in order |
| DisplayLegacy.PlacesTotal | src/video_display/vulkan_display.cpp:374-379 | the images in all places, added up, are the queues' contents and the held and lost images |
| DisplayLegacy.InitialQueues | src/video_display/vulkan_display.cpp:374-379 | after `init` images `0..n-1` are each in exactly one place, and no null pointer waits in the available queue |
| DisplayLegacy.TakeFromList | src/video_display/vulkan_display.cpp:76-78 | taking the back of the producer's list keeps every image in one place, and the id is one of the pool's |
| DisplayLegacy.TakeFromQueue | src/video_display/vulkan_display.cpp:80-81 | taking the front of the available queue (a null pointer puts nothing in the producer's hands) keeps every image in one place, and a real front is one of the pool's |
| DisplayLegacy.ProviderQueues | src/video_display/vulkan_display.cpp:510-515 | queuing an image, or an empty one, keeps every image in one place |
| DisplayLegacy.ProviderDiscards | src/video_display/vulkan_display.h:141-146 | an image discarded through the available queue keeps every image in one place |
| DisplayLegacy.ProviderLoses | src/video_display/vulkan_display.cpp:483-486 | an image whose fence wait fails is lost, and the bookkeeping still holds |
| DisplayLegacy.DiscardAccounted | src/video_display/vulkan_display.cpp:523-529 | the minimized short cut keeps every image in one place |
| DisplayLegacy.DiscardAsWrittenAccounted | src/video_display/vulkan_display.cpp:567-575 | the retry loop's discard keeps every image in one place too |
| DisplayLegacy.DiscardFrontKeepsNoNulls | src/video_display/vulkan_display.cpp:524-527 | the discard with the null check never puts a null pointer in the available queue |
| DisplayLegacy.TakeFilled | src/video_display/vulkan_display.cpp:531-534 | the render thread dequeuing a filled image (or a null pointer) keeps every image in one place |
| DisplayLegacy.RenderReturns | src/video_display/vulkan_display.cpp:626 | the shown image going back to the available queue keeps every image in one place |
| DisplayLegacy.RenderLoses | src/video_display/vulkan_display.cpp:564-575 | an image the render thread drops is lost, and the bookkeeping still holds |
| DisplayLegacy.HeldImageExists | src/video_display/vulkan_display.cpp:72-84 | an image in either thread's hands is one of the pool's |
| DisplayLegacy.ProducerStarvesOnceAllLost | src/video_display/vulkan_display.cpp:72-84 | once every image is lost neither the producer's list nor the available queue holds one, so `acquire_transfer_image` would wait for ever |
| DisplayLegacy.NullReachesAvailableQueue | src/video_display/vulkan_display.cpp:567-575 | an empty image queued at the end of a stream and dequeued by the retry loop reaches the available queue as a null pointer; the null-checked discard keeps it out |
| DisplayLegacy.MinimizedFrame | src/video_display/vulkan_display.cpp:523-529 | a minimized window moves at most one filled image (not a null pointer) to the available queue and shows nothing |
| DisplayLegacy.NoFrame | src/video_display/vulkan_display.cpp:531-534 | an empty filled queue or a null front ends the call without showing anything, the front, if any, consumed and nothing else changed |
| DisplayLegacy.HeldFrame | src/video_display/vulkan_display.cpp:536-627 | holding the front filled image, the call does what `HeldOutcome` says, including the loss of the image on a failed acquisition, submission or present and the discard plus hand-back (as written loss) after a minimize during the retries |
| DisplayLegacy.LegacyDisplay.ContextWindowParameters | src/video_display/vulkan_context.h:212-214 | the context's window parameters are its swapchain size and vsync flag |
| DisplayLegacy.LegacyDisplay.constructor | src/video_display/vulkan_display.cpp:352-381 | `transfer_image_count` images, none submitted, all in the producer's list; the present mode `get_present_mode` picks; the swapchain sized for the window, clamped to the surface |
| DisplayLegacy.CreateImages | src/video_display/vulkan_display.cpp:374-378 | `n` images with the new-image description, none with its fence set, and the ids 0 to n − 1 in the producer's list in order |
| DisplayLegacy.LegacyDisplay.Destroy | src/video_display/vulkan_display.cpp:383-412 | the display is destroyed afterwards |
| DisplayLegacy.LegacyDisplay.Destructor | src/video_display/vulkan_display.h:121-125 | the destructor destroys exactly when `destroy` has not run |
| DisplayLegacy.LegacyDisplay.AcquireTransferImage | src/video_display/vulkan_display.cpp:72-84 | the back of the producer's list, else the front of the available queue, which passes into the producer's hands while nothing else moves; a null pointer at that front is popped and dereferenced, so the answer is `NullDereference` exactly then |
| DisplayLegacy.LegacyDisplay.AcquireImage | src/video_display/vulkan_display.cpp:467-499 | a Y'CbCr format the device cannot sample is refused with the message naming Vulkan 1.1 on a 1.0 instance; otherwise the outcome is `DescribedOutcome`: a null pointer taken from the available queue is a NULL dereference; "Waiting for fence failed." exactly when the taken image's fence is set and its wait fails, then the error of `transfer_image::create` when a new description needs one and it fails, each losing the image; otherwise the producer holds the image, not in flight, with the requested description |
| DisplayLegacy.LegacyDisplay.TakeDescribedImage | src/video_display/vulkan_display.cpp:479-496 | the outcome is `DescribedOutcome`: a NULL dereference exactly for a null front of the available queue; otherwise a failed fence wait, then a failed `transfer_image::create` (line 494) for a new description, loses the image with that error, and any other call leaves the producer holding it with the requested description and nothing in flight |
| DisplayLegacy.LegacyDisplay.DescribeTaken | src/video_display/vulkan_display.cpp:481-496 | the fence of the held image is waited for only when set and the image is recreated only for a new description; either failure loses the image with its error; otherwise the image has the requested description and is no longer in flight |
| DisplayLegacy.LegacyDisplay.WaitForFence | src/video_display/vulkan_display.cpp:482-487 | the wait succeeds exactly when the fence is not set or its wait succeeds; the image is then no longer in flight and the queues are unchanged; otherwise the image is lost |
| DisplayLegacy.LegacyDisplay.QueueImage | src/video_display/vulkan_display.cpp:510-515 | the image always joins the filled queue and is never discarded |
| DisplayLegacy.LegacyDisplay.DiscardImage | src/video_display/vulkan_display.h:141-146 | the producer gives the image back through the available queue |
| DisplayLegacy.LegacyDisplay.DiscardFilled | src/video_display/vulkan_display.cpp:523-575 | the front of the filled queue goes to the available queue, null pointers included unless checked; no image is lost |
| DisplayLegacy.LegacyDisplay.DequeueFilled | src/video_display/vulkan_display.cpp:531-534 | an empty filled queue yields nothing and changes nothing; otherwise its front (possibly null) passes to the render thread |
| DisplayLegacy.LegacyDisplay.PrepareRenderState | src/video_display/vulkan_display.cpp:543-558 | a new format rebuilds the pipeline objects for it; any new description becomes current and recomputes the render area for the context's window size; otherwise nothing changes |
| DisplayLegacy.LegacyDisplay.RecreateSwapchain | src/video_display/vulkan_context.h:216 | the new size clamped to the surface, the new vsync flag and a new swapchain |
| DisplayLegacy.LegacyDisplay.AcquireSwapchainImage | src/video_display/vulkan_display.cpp:559-583 | the outcome is the newer engine's `AcquireOutcome` on the retry window sizes; the filled queue loses its front only when the window was minimized meanwhile; no image is lost here |
| DisplayLegacy.LegacyDisplay.RecreateForWindow | src/video_display/vulkan_display.cpp:576-580 | after the swapchain is recreated the render area is the one computed for the retry window and the current description; the bookkeeping holds |
| DisplayLegacy.LegacyDisplay.FinishFrame | src/video_display/vulkan_display.cpp:584-627 | an acquired swapchain image raises the image's `fence_set` before the submission; the image goes back to the available queue exactly when the submission succeeds and the present is tolerated (or, corrected, after a minimized retry); a failed submission (line 602) returns its error before the present, an intolerable present its own, and every such outcome loses the image |
| DisplayLegacy.LegacyDisplay.SetFence | src/video_display/vulkan_display.cpp:589 | the held image's fence flag is raised and the image is in flight; nothing else changes |
| DisplayLegacy.LegacyDisplay.ReleaseHeld | src/video_display/vulkan_display.cpp:626 | the held image goes back to the available queue when handed back and is otherwise lost; no null pointer is added |
| DisplayLegacy.LegacyDisplay.PresentHeld | src/video_display/vulkan_display.cpp:536-627 | the held image's outcome is `HeldOutcome`: shown exactly when a swapchain image is acquired, the submission succeeds and the present is tolerated, lost on any error; a minimize during the retries moves the next filled entry to the available queue (as written without the null check) and hands the image back (as written loses it), as `MinimizedRetry` gives; a shown image is in flight with its fence flag raised and its description current |
| DisplayLegacy.LegacyDisplay.SubmitHeld | src/video_display/vulkan_display.cpp:559-626 | the held image's outcome is `HeldOutcome`, with the submission's failure at line 602 returning its error and losing the image and a minimize during the retries (lines 566-574) ending as `MinimizedRetry` gives; a shown image is in flight with its fence flag raised |
| DisplayLegacy.LegacyDisplay.DisplayQueuedImage | src/video_display/vulkan_display.cpp:517-628 | a frame is shown exactly when the window is visible, a filled image waits, a swapchain image is acquired, the submission succeeds and the present is tolerated, and an error exactly on a failed acquisition, submission or present, which loses the image; the new queues are given on every path: the minimized discard, the consumed front when no frame is dequeued (lines 531-534), the shown or lost image, and `MinimizedRetry` after a minimize during the retries; corrected, no image is lost otherwise and no null pointer reaches the available queue; as written a window minimized during the retries loses the image being shown |
| DisplayLegacy.LegacyDisplay.WindowParametersChanged | src/video_display/vulkan_display.cpp:630-638 | parameters that differ from the context's (size or vsync) and are not minimized recreate the swapchain and the render area; anything else changes nothing |
| DisplayLegacy.LegacyDisplay.WindowParametersChangedFromWindow | src/video_display/vulkan_display.h:159-162 | the same with the parameters the window reports now |
| DisplayLegacy.TakenImage | src/video_display/vulkan_display.cpp:72-84 | the image `acquire_transfer_image` takes, the list's back or else the queue's front, is one of the pool's; it is a NULL dereference exactly when the list is empty and the queue's front is a null pointer |

## Left out

- Vulkan API effects are out of scope. That covers creating images, memory, pipelines, shaders, render passes and descriptor sets, recording commands, waiting for the device, and mapping memory. Handles are opaque values. A fence is a boolean that the environment signals. The results the display logic branches on are parameters: fence waits, swapchain acquisitions, queue submissions, presents, the newer engine's transfer-image recreation and the older engine's `transfer_image::create`.
- `Display.VulkanDisplay.RecreateForWindow`, `Display.VulkanDisplay.WindowParametersChanged`, `DisplayLegacy.LegacyDisplay.RecreateSwapchain` and `DisplayLegacy.LegacyDisplay.WindowParametersChanged` treat swapchain re-creation as always succeeding. In the source it throws (newer engine) or returns its error (older engine) mid-frame, holding the image.
- `DisplayLegacy.LegacyDisplay.PrepareRenderState` treats the pipeline rebuild as always succeeding: `waitIdle`, the sampler, the descriptor set layout, the pipeline and the descriptor sets (src/video_display/vulkan_display.cpp:544-550). `Display.VulkanDisplay.Reconfigure` does the same for the newer engine's `reconfigure`. `prepare_for_rendering`, `resetFences` and command recording are treated the same way.
- `DisplayLegacy.LegacyDisplay.TakeDescribedImage` follows the build with exceptions, where a failed `transfer_image::create` throws and the image is lost. The build without exceptions ignores that call's result (src/video_display/vulkan_display.cpp:494) and hands the image out; the model does not cover that build.
- Real concurrency is out of scope: mutexes, condition variables, atomics, the DirectShow critical section and memory ordering. Every queue, ring-buffer and grabber operation is one sequential step. A blocking wait is a precondition that what it waits for is already there. A timed wait is a parameter that says whether it timed out.
- The disabled moodycamel and pointer-queue variants of `concurrent_queue.hpp` are out of scope. The mutex queue is the one compiled in.
- Floating point is out of scope:
  - The render area uses exact integers in place of `double` and `std::round`.
  - `RenderArea.UpdateRenderArea` returns no area for a window or image with a zero side. The source divides in `double` there and gets NaN or infinity, which the model does not reproduce.
  - The testcard fps comparison and frame timing are left out.
  - The sine-wave fallback audio is left out.
  - DirectShow's fps conversion is left out.
  - The SDL2 keep-aspect resize (`sqrt`) is left out.
- Vulkan instance creation, validation layers and the debug messenger are out of scope. They are foreign calls with no decision of their own.
- DirectShow and COM plumbing is out of scope: graph building, device enumeration, pin connection and help output.
- The SDL2 event loop is out of scope, and so are window and surface creation, help text and FPS logging.
- Testcard is partly out of scope:
  - File loading is left out: pam, y4m and raw files.
  - The pattern generator is left out.
  - The planar still image is left out.
  - The option loop records `afrequency=`, `p`, `still`, `file=` and `s=`, but nothing downstream uses them.
- `Display.VulkanDisplay.DisplayFrame` and `Display.VulkanDisplay.DisplayWithSlot` do not call `preprocess` on the dequeued transfer image (src/video_display/vulkan/vulkan_display.cpp:542). The display tracks images by id, not by their memory. What that call does to an image is `TransferImage.TransferImageImpl.Preprocess`.
- `DisplayLegacy.LegacyDisplay.DisplayQueuedImage` does not call `preprocess` on the dequeued transfer image (src/video_display/vulkan_display.cpp:537), for the same reason. What that call does is `TransferImageLegacy.Preprocess`.
- `RingBuffer` sizes and indices are unbounded integers, and its functions require `len > 0`. The source's `int` sizes could be negative, and `2 * len` can overflow `int`. Neither case is modelled.
- `Testcard.ConfigureAudio`: `48000 * vden` is an unbounded product here. The source computes it in `int`.
- `get_framerate_n` and `get_framerate_d` are not part of this model. `Testcard.Init` takes them as the parameter `framerate`, whose numerator is positive.
- Post-processing filter internals and `load_library` are out of scope. A filter is a record of callback functions. `vo_postprocess_done` is not modelled, since it only frees memory.
- `Postprocess.Process` requires every filter after the first to hold a frame, and the caller's `in` to be the first filter's frame or NULL, as the source's assertion demands. A chain on which `getf` succeeded meets this.
- A null pointer at the front of the older engine's available queue has no defined result. The source's retry-loop discard can put one there (`DisplayLegacy.NullReachesAvailableQueue`), and `acquire_transfer_image` dereferences it (src/video_display/vulkan_display.cpp:83). `DisplayLegacy.LegacyDisplay.AcquireTransferImage`, `DisplayLegacy.LegacyDisplay.AcquireImage` and `DisplayLegacy.LegacyDisplay.TakeDescribedImage` pop it and return `NullDereference`, and model nothing past it.
- An empty chain has no defined result. `vo_postprocess_init` builds one for a configuration made only of `,` (`Postprocess.EmptyChainConfigurations`). On such a chain the source dereferences NULL in `vo_postprocess_get_out_desc`, in `vo_postprocess`, and in `vo_postprocess_get_property` for the tiling mode or the codecs. `Postprocess.GetOutDesc`, `Postprocess.Process` and `Postprocess.GetProperty` return `NullDereference` there and model nothing past it. `Postprocess.Process` dereferences the empty chain inside an `assert` (src/vo_postprocess.c:213), so this follows a build with assertions enabled; under `NDEBUG` the loop runs zero times and the call returns TRUE.
- The H.264 SDP sender's network side is out of scope: `tx_send_*`, `rtp_*` and `send_message` become events in a trace. `is_codec_opaque` and `sdp_add_video` are parameters.
- `H264Sdp.SdpSender.SendFrame`: `abort()` is recorded as a final `Abort` event, and the model's state after it means nothing.
- `DShow.Grabber.BufferCB` requires a BGR or RGBA sample to hold `height * linesize` bytes. The source reads past a shorter one.
- `DShow.Grabber.BufferCB`: the bytes of a fresh `realloc` are zeros here. `vc_copylineRGBA` is the parameter `copyRgba`.
- `DShow.Grabber.Grab`: the YUYV-to-RGB conversion result is not wired into the grabbed frame, because the source does not use it as the frame's data either.
- `DShow.ConvertYuyvRgb` requires a whole number of 4-byte groups. The source's loop would read past a trailing partial group.
- `DShow.ProcessArgs`: the wide-character device-name variant and a failing `malloc` for `deviceName` are not modelled.
- `DShow.SubtypeName`: only the `Data1` field of each subtype GUID is kept. The remaining fields are the same Windows SDK suffix for every FourCC subtype.
- `src/utils/fs.cpp`, `src/host.h`, `src/video_display/testing.h` and `test_libug_sender.c` are not part of this model. They hold OS path queries, extern declarations, wall-clock timers and a demo driver.
- `src/video_display/vulkan/vulkan_pipelines.hpp` has no logic apart from a field copy. Only its `RenderArea` and `ImageSize` shapes are used.
- The C library routines the parsers call (`atoi`, `strtol`, `strtod`, `strtok`, `strchr`) are modelled in `cstrings.dfy`. The model follows their documented behaviour, not any particular libc, except for the `strtod` forms listed next.
- `CStrings.Strtod` and `Testcard.ParseFps` read only plain decimal notation: optional white space and sign, digits, and an optional fraction after '.'. The exponent (`1e2`), hexadecimal (`0x1p4`), `inf`/`infinity` and `nan` forms that C `strtod` also accepts are not read. So `fps=1e2` is read as rate 1 with `e2` passed to the interlacing-suffix lookup, where the source (src/video_capture/testcard.c:240) reads rate 100 with no suffix.

## Findings

| source | as written | input that shows it | evidently intended | confidence | as-written member | corrected member |
|---|---|---|---|---|---|---|
| src/video_display/vulkan_context.hpp:78-80 | `is_minimized` tests `width * height == 0` in 32-bit arithmetic | a 65536 x 65536 window: the product wraps to 0 and the window counts as minimized | minimized when either side is 0 | low (needs a huge window), not executed | VulkanContext.MinimizedWrapsAt65536 | VulkanContext.MinimizedAgreesWithoutOverflow |
| src/video_display/vulkan/vulkan_display.cpp:419-441 | `queue_image` returns true for every discardable image, also one that was queued | a discardable image with room in the filled queue: it is queued and the call still reports it discarded | true only when the image went back unqueued, as the header documents | medium, not executed | Display.VulkanDisplay.QueueImageAsWritten | Display.VulkanDisplay.QueueImage |
| src/video_display/vulkan/vulkan_display.cpp:529-539 | a free frame slot is popped and then the wait for a filled image times out; the slot is never returned | an idle stream with two slots: after two timeouts no frame can ever be displayed | the slot goes back to the free list | high, not executed | Display.NothingDisplayedOnceSlotsLost | Display.VulkanDisplay.DisplayWithSlot |
| src/video_display/vulkan/vulkan_display.cpp:549-568 | when the window is minimized during a swapchain re-creation retry, the call returns holding a transfer image and a slot, which are never given back | a minimize during the first acquire retry: one image and one slot leave the pool for good | both go back to their queues | medium, not executed | Display.VulkanDisplay.FinishFrame | Display.VulkanDisplay.ReleaseHeld |
| src/video_display/vulkan/vulkan_display.cpp:470-480 | the conversion images are rebuilt only when the format changes | an R8G8B8A8 stream going from 1280x720 to 1920x1080 keeps 1280x720 conversion images | they are recreated whenever the size changes too | medium, not executed | Display.VulkanDisplay.ReconfigureAsWritten | Display.VulkanDisplay.Reconfigure |
| src/video_display/vulkan_display.cpp:567-575 | discarding the front filled image on a minimized window forwards a null pointer to the available queue | a filled queue holding only the null terminator `[None]` | the null entry is dropped and only real images are returned | medium, not executed | DisplayLegacy.NullReachesAvailableQueue | DisplayLegacy.DiscardFrontKeepsNoNulls |
| src/video_display/vulkan_display.cpp:559-583 | a minimize during the acquire retry returns with the popped image neither shown nor given back | a minimize during the first retry: the image is lost from the pool | the image goes back to the available queue | medium, not executed | DisplayLegacy.LegacyDisplay.DisplayQueuedImage | DisplayLegacy.LegacyDisplay.FinishFrame |
| src/video_capture/testcard.c:140-142 | any fps whose sample count divides exactly is accepted, including fps below 1 | fps 1/2 gives 96000 samples per frame, a whole buffer, so the grab hands out audio past the allocation | rates below 1 fps refused, or a larger buffer | medium, not executed | Testcard.HalfFpsOverrunsBuffer | Testcard.ConfiguredCadenceStaysInBuffer |
| src/video_capture/DirectShowGrabber.cpp:560-587 | width and height go from `atoi` into `unsigned` fields, so the `<= 0` test only catches 0 | "0:YUYV:-640:480:30" is accepted with width 4294966656 | each side must be positive | high, not executed | DShow.NegativeWidthAccepted | DShow.NegativeWidthRefused |
| src/video_capture/DirectShowGrabber.cpp:1052-1062 | the last fill loop of `yuv_clamp` stops one entry short | entry 811 (value 535) is never written | every entry from −276 to 535 filled | high, not executed | DShow.BuildClampTable | DShow.CorrectedTableClamps |
| src/video_capture/DirectShowGrabber.cpp:1165-1173 | `convert_yuv_rgb` indexes the table with the raw value, without the `MIN_YUV_CLAMP` offset | Y = U = V = 0 gives −277, before the table, and still −1 with the offset | every reachable value clamped to 0..255 | high, not executed | DShow.ClampIndexAsWritten | DShow.ConvertYuvRgb |
| src/video_capture/DirectShowGrabber.cpp:144-150 | a failed `realloc` in `BufferCB` returns without leaving the critical section | any sample whose `realloc` fails: the grab thread then blocks for good | leave the critical section before returning | high, not executed | DShow.Grabber.BufferCB | DShow.Grabber.BufferCB |
| src/vo_postprocess.c:270 | `get_property` passes the chain's own wrapper record to the filter instead of the filter's state | any single-filter chain asked for a property: the filter reads its state from the wrong object | the filter's own state, as every other call passes | high, not executed | Postprocess.PropertyArgument | Postprocess.GetProperty |
