/**
 * The SDL2 front end of the (older) Vulkan display: translation of SDL
 * key events to UltraGrid key codes, the display's own key bindings, its
 * option string, the window size it reports to the engine, and the
 * frame hand-over of `putf`.
 */
module Sdl2 {
  import opened Wrappers
  import opened CStrings
  import opened Video
  import VulkanContextLegacy
  import DisplayLegacy
  import Display
  import TransferImageLegacy

  // ---------------------------------------------------------------------
  // Key translation
  // ---------------------------------------------------------------------

  /** Bit positions of the SDL modifier flags (`KMOD_*`). */
  const KMOD_LSHIFT: nat := 0
  const KMOD_RSHIFT: nat := 1
  const KMOD_LCTRL: nat := 6
  const KMOD_RCTRL: nat := 7
  const KMOD_LALT: nat := 8
  const KMOD_NUM: nat := 12
  const KMOD_CAPS: nat := 13

  const KMOD_SHIFT: Mask := {KMOD_LSHIFT, KMOD_RSHIFT}
  const KMOD_CTRL: Mask := {KMOD_LCTRL, KMOD_RCTRL}
  /** Num Lock and Caps Lock, which the translation ignores. */
  const LOCK_MODIFIERS: Mask := {KMOD_NUM, KMOD_CAPS}

  /** `SDLK_SCANCODE_MASK`: keys without a character are their scancode with this bit set. */
  const SCANCODE_MASK: int := 0x4000_0000

  function ScancodeKey(scancode: nat): int
    requires scancode < SCANCODE_MASK
  {
    scancode + SCANCODE_MASK
  }

  const SDLK_LCTRL: int := ScancodeKey(224)
  const SDLK_RCTRL: int := ScancodeKey(228)
  const SDLK_RIGHT: int := ScancodeKey(79)
  const SDLK_LEFT: int := ScancodeKey(80)
  const SDLK_DOWN: int := ScancodeKey(81)
  const SDLK_UP: int := ScancodeKey(82)
  const SDLK_PAGEUP: int := ScancodeKey(75)
  const SDLK_PAGEDOWN: int := ScancodeKey(78)

  /** `sym & SDLK_SCANCODE_MASK` for a 32-bit key code. */
  predicate HasScancodeMask(sym: int)
  {
    (sym % 0x1_0000_0000) / SCANCODE_MASK % 2 == 1
  }

  /** `SDL_Keysym`: the key code and the modifier flags held with it. */
  datatype Keysym = Keysym(sym: int, mod: Mask)

  /**
   * The UltraGrid key code of a key event. `Ignored` is 0 ("do not
   * interpret") and `Unknown` is -1; `Ctrl(c)` is `K_CTRL(c)` and the
   * arrows and page keys are the `K_*` codes.
   */
  datatype UgKey = Ignored | Unknown | Plain(code: int) | Ctrl(code: int)
                 | Right | Left | Down | Up | PageDown | PageUp

  /** Modifiers other than the lock keys, Ctrl and Shift. */
  function OtherModifiers(mod: Mask): Mask
  {
    mod - LOCK_MODIFIERS - KMOD_CTRL - KMOD_SHIFT
  }

  predicate IsCtrlKey(sym: int) { sym == SDLK_LCTRL || sym == SDLK_RCTRL }

  /** The key the arrows and page keys of the scancode range stand for. */
  function NavigationKey(sym: int): (r: UgKey)
    ensures r in {Right, Left, Down, Up, PageDown, PageUp, Unknown}
  {
    if sym == SDLK_RIGHT then Right
    else if sym == SDLK_LEFT then Left
    else if sym == SDLK_DOWN then Down
    else if sym == SDLK_UP then Up
    else if sym == SDLK_PAGEDOWN then PageDown
    else if sym == SDLK_PAGEUP then PageUp
    else Unknown
  }

  /**
   * `translate_sdl_key_to_ug`. A Ctrl key on its own is not interpreted;
   * with lock modifiers dropped, any modifier besides Ctrl and Shift makes
   * the key unknown; a character key is upper-cased by Shift and wrapped
   * by Ctrl; of the scancode keys only the arrows and page keys have
   * codes.
   */
  function TranslateKey(k: Keysym): (r: UgKey)
    ensures r == Ignored <==> IsCtrlKey(k.sym)
    ensures !IsCtrlKey(k.sym) && OtherModifiers(k.mod) != {} ==> r == Unknown
    ensures r.Plain? || r.Ctrl? <==> !IsCtrlKey(k.sym) && OtherModifiers(k.mod) == {} && !HasScancodeMask(k.sym)
    ensures r.Ctrl? <==> !IsCtrlKey(k.sym) && OtherModifiers(k.mod) == {} && !HasScancodeMask(k.sym) && k.mod * KMOD_CTRL != {}
    ensures r.Plain? || r.Ctrl? ==> r.code == if k.mod * KMOD_SHIFT != {} then ToUpper(k.sym) else k.sym
    ensures r in {Right, Left, Down, Up, PageDown, PageUp} <==>
      !IsCtrlKey(k.sym) && OtherModifiers(k.mod) == {} && HasScancodeMask(k.sym) && NavigationKey(k.sym) != Unknown
  {
    var mod := k.mod - LOCK_MODIFIERS;
    if IsCtrlKey(k.sym) then Ignored
    else
      var ctrl := mod * KMOD_CTRL != {};
      var withoutCtrl := mod - KMOD_CTRL;
      var shift := withoutCtrl * KMOD_SHIFT != {};
      if withoutCtrl - KMOD_SHIFT != {} then Unknown
      else if !HasScancodeMask(k.sym) then
        var c := if shift then ToUpper(k.sym) else k.sym;
        if ctrl then Ctrl(c) else Plain(c)
      else NavigationKey(k.sym)
  }

  /** Num Lock and Caps Lock never change the translation. */
  lemma LockModifiersIgnored(sym: int, mod: Mask)
    ensures TranslateKey(Keysym(sym, mod + LOCK_MODIFIERS)) == TranslateKey(Keysym(sym, mod - LOCK_MODIFIERS))
    ensures TranslateKey(Keysym(sym, mod)) == TranslateKey(Keysym(sym, mod - LOCK_MODIFIERS))
  {
    assert (mod + LOCK_MODIFIERS) - LOCK_MODIFIERS == (mod - LOCK_MODIFIERS) - LOCK_MODIFIERS;
    assert mod - LOCK_MODIFIERS == (mod - LOCK_MODIFIERS) - LOCK_MODIFIERS;
  }

  /** Each navigation key has its code with Shift, Ctrl or the lock keys held. */
  lemma NavigationKeysTranslate(mod: Mask)
    requires mod <= KMOD_SHIFT + KMOD_CTRL + LOCK_MODIFIERS
    ensures TranslateKey(Keysym(SDLK_RIGHT, mod)) == Right && TranslateKey(Keysym(SDLK_LEFT, mod)) == Left
    ensures TranslateKey(Keysym(SDLK_DOWN, mod)) == Down && TranslateKey(Keysym(SDLK_UP, mod)) == Up
    ensures TranslateKey(Keysym(SDLK_PAGEDOWN, mod)) == PageDown && TranslateKey(Keysym(SDLK_PAGEUP, mod)) == PageUp
  {
    assert OtherModifiers(mod) == {};
  }

  /** Shift+a gives 'A', Ctrl+Shift+a gives K_CTRL('A'), and Alt+a is unknown. */
  lemma CharacterKeyExamples()
    ensures TranslateKey(Keysym('a' as int, {KMOD_LSHIFT})) == Plain('A' as int)
    ensures TranslateKey(Keysym('a' as int, {KMOD_RCTRL, KMOD_LSHIFT, KMOD_CAPS})) == Ctrl('A' as int)
    ensures TranslateKey(Keysym('a' as int, {KMOD_LALT})) == Unknown
  {
    assert !HasScancodeMask('a' as int);
    var held := {KMOD_RCTRL, KMOD_LSHIFT, KMOD_CAPS};
    assert held - LOCK_MODIFIERS == {KMOD_RCTRL, KMOD_LSHIFT};
    assert ({KMOD_RCTRL, KMOD_LSHIFT} - KMOD_CTRL) == {KMOD_LSHIFT};
    assert OtherModifiers({KMOD_LALT}) == {KMOD_LALT};
  }

  // ---------------------------------------------------------------------
  // Options
  // ---------------------------------------------------------------------

  /** `SDL_WINDOW_BORDERLESS`. */
  const SDL_WINDOW_BORDERLESS: U32 := 0x10
  /** `SDL_WINDOWPOS_UNDEFINED`. */
  const SDL_WINDOWPOS_UNDEFINED: int := 0x1FFF_0000

  /** What `display_sdl2_init` records from its option string. */
  datatype Options = Options(
    deinterlace: bool, displayIndex: int, fullscreen: bool, vsync: bool, windowFlags: U32,
    keepAspect: bool, validation: bool, fixedSize: bool, fixedWidth: int, fixedHeight: int,
    x: int, y: int, gpuIndex: U32)

  const DEFAULT_OPTIONS: Options := Options(
    false, 0, false, true, 0, false, false, false, 0, 0,
    SDL_WINDOWPOS_UNDEFINED, SDL_WINDOWPOS_UNDEFINED, VulkanContextLegacy.NO_GPU_SELECTED)

  /** `flags |= f` on a `uint32_t`. */
  function OrU32(a: U32, b: U32): (r: U32)
    ensures b == 0 ==> r == a
  {
    if b == 0 then a else ((a as bv32) | (b as bv32)) as int
  }

  /** One option's effect: the updated options, a request for help, or an error. */
  datatype Step = Next(options: Options) | Help | Fail

  /** Whether `tok` starts with `p` (`strncmp(tok, p, strlen(p)) == 0`, or `strstr(tok, p) == tok`). */
  predicate StartsWith(tok: string, p: string) { p <= tok }

  /** One token of the option loop. */
  function ApplyOption(o: Options, tok: string): (r: Step)
    ensures r.Fail? <==> OptionFails(tok)
    ensures r.Help? <==> tok == "help"
  {
    if tok == "d" then Next(o.(deinterlace := true))
    else if StartsWith(tok, "display=") then Next(o.(displayIndex := Atoi(tok[8..])))
    else if tok == "fs" then Next(o.(fullscreen := true))
    else if tok == "help" then Help
    else if tok == "novsync" then Next(o.(vsync := false))
    else if tok == "nodecorate" then Next(o.(windowFlags := OrU32(o.windowFlags, SDL_WINDOW_BORDERLESS)))
    else if tok == "keep-aspect" then Next(o.(keepAspect := true))
    else if tok == "validation" then Next(o.(validation := true))
    else if StartsWith(tok, "fixed_size") then Next(FixedSize(o, tok[10..]))
    else if StartsWith(tok, "window_flags=") then
      var f := Strtol(tok[13..]);
      if !f.converted then Fail else Next(o.(windowFlags := OrU32(o.windowFlags, ToU32(f.value))))
    else if StartsWith(tok, "pos=") then
      var pos := tok[4..];
      if ',' !in pos then Fail else Next(o.(x := Atoi(pos), y := Atoi(After(pos, ','))))
    else if StartsWith(tok, "gpu=") then Next(o.(gpuIndex := ToU32(Atoi(tok[4..]))))
    else Fail
  }

  /**
   * An option starting with "fixed_size" asks for a fixed window size;
   * when it goes on "=WxH" the two numbers are the width and height.
   */
  function FixedSize(o: Options, rest: string): (r: Options)
    ensures r.fixedSize
  {
    if StartsWith(rest, "=") && 'x' in rest[1..] then
      o.(fixedSize := true, fixedWidth := Atoi(rest[1..]), fixedHeight := Atoi(After(rest[1..], 'x')))
    else o.(fixedSize := true)
  }

  /** The options the loop does not know, and the two whose value it cannot use. */
  predicate OptionFails(tok: string)
  {
    if tok in {"d", "fs", "help", "novsync", "nodecorate", "keep-aspect", "validation"} then false
    else if StartsWith(tok, "display=") || StartsWith(tok, "fixed_size") then false
    else if StartsWith(tok, "window_flags=") then !Strtol(tok[13..]).converted
    else if StartsWith(tok, "pos=") then ',' !in tok[4..]
    else !StartsWith(tok, "gpu=")
  }

  datatype InitOutcome = Configured(options: Options) | ShowHelp | InitFailed

  /** The option loop over the tokens: it stops at "help" or at the first error. */
  function ParseOptions(o: Options, toks: seq<string>): InitOutcome
    decreases |toks|
  {
    if toks == [] then Configured(o)
    else match ApplyOption(o, toks[0])
      case Next(o') => ParseOptions(o', toks[1..])
      case Help => ShowHelp
      case Fail => InitFailed
  }

  /** The options are accepted exactly when no token is "help" and none fails. */
  lemma {:induction false} ParseConfiguredIff(o: Options, toks: seq<string>)
    ensures ParseOptions(o, toks).Configured? <==>
      forall i :: 0 <= i < |toks| ==> toks[i] != "help" && !OptionFails(toks[i])
    decreases |toks|
  {
    if toks != [] {
      ParseConfiguredIff(if ApplyOption(o, toks[0]).Next? then ApplyOption(o, toks[0]).options else o, toks[1..]);
      assert forall i :: 1 <= i < |toks| ==> toks[i] == toks[1..][i - 1];
    }
  }

  /** A token that fails, after tokens that are all accepted, fails the whole init. */
  lemma {:induction false} FirstBadOptionFails(o: Options, toks: seq<string>, k: nat)
    requires k < |toks| && OptionFails(toks[k])
    requires forall i :: 0 <= i < k ==> toks[i] != "help" && !OptionFails(toks[i])
    ensures ParseOptions(o, toks) == InitFailed
    decreases k
  {
    if k > 0 {
      FirstBadOptionFails(ApplyOption(o, toks[0]).options, toks[1..], k - 1);
    }
  }

  /** The option "fixed_size=WxH" for decimal W and H. */
  function FixedSizeToken(w: nat, h: nat): string
  {
    "fixed_size" + ("=" + (NatToString(w) + "x" + NatToString(h)))
  }

  /** `fixed_size=WxH` with decimal W and H sets both sides. */
  lemma FixedSizeSetsBothSides(o: Options, w: nat, h: nat)
    ensures ApplyOption(o, FixedSizeToken(w, h)) == Next(o.(fixedSize := true, fixedWidth := w, fixedHeight := h))
  {
    FixedSizeDispatch(o, "=" + (NatToString(w) + "x" + NatToString(h)));
    FixedSizeOfNumbers(o, w, h);
  }

  lemma FixedSizeDispatch(o: Options, rest: string)
    ensures ApplyOption(o, "fixed_size" + rest) == Next(FixedSize(o, rest))
  {
    var tok := "fixed_size" + rest;
    assert tok[0] == 'f' && tok[1] == 'i' && tok[..10] == "fixed_size" && tok[10..] == rest;
  }

  lemma FixedSizeOfNumbers(o: Options, w: nat, h: nat)
    ensures FixedSize(o, "=" + (NatToString(w) + "x" + NatToString(h))) == o.(fixedSize := true, fixedWidth := w, fixedHeight := h)
  {
    var size := NatToString(w) + "x" + NatToString(h);
    assert ("=" + size)[1..] == size;
    FixedWidthOf(w, h);
    FixedHeightOf(w, h);
  }

  lemma FixedWidthOf(w: nat, h: nat)
    ensures Atoi(NatToString(w) + "x" + NatToString(h)) == w
  {
    var rest := "x" + NatToString(h);
    assert rest[0] == 'x';
    AtoiOfNumberThen(w, rest);
    Regroup(NatToString(w), "x", NatToString(h));
  }

  lemma Regroup(a: string, b: string, c: string)
    ensures a + b + c == a + (b + c)
  {
  }

  lemma FixedHeightOf(w: nat, h: nat)
    ensures 'x' in NatToString(w) + "x" + NatToString(h)
    ensures Atoi(After(NatToString(w) + "x" + NatToString(h), 'x')) == h
  {
    assert NatToString(w) + "x" + NatToString(h) == NatToString(w) + ['x'] + NatToString(h);
    assert 'x' !in NatToString(w);
    AfterFirst(NatToString(w), 'x', NatToString(h));
    AtoiOfNatToString(h);
  }

  /**
   * `display_sdl2_init`'s option handling: audio is refused before
   * anything else, a missing string is empty, and the tokens between ':'
   * are applied in order.
   */
  method ParseInitOptions(fmt: Option<string>, audioRequested: bool) returns (r: InitOutcome)
    ensures audioRequested ==> r == InitFailed
    ensures !audioRequested ==>
      r == ParseOptions(DEFAULT_OPTIONS, Tokens(if fmt.Some? then fmt.value else "", ':'))
  {
    if audioRequested {
      return InitFailed;
    }
    var toks := Tokens(if fmt.Some? then fmt.value else "", ':');
    var o := DEFAULT_OPTIONS;
    var i := 0;
    while i < |toks|
      invariant i <= |toks|
      invariant ParseOptions(o, toks[i..]) == ParseOptions(DEFAULT_OPTIONS, toks)
    {
      assert toks[i..][1..] == toks[i + 1..];
      var step := ApplyOption(o, toks[i]);
      if step.Help? {
        return ShowHelp;
      } else if step.Fail? {
        return InitFailed;
      }
      o := step.options;
      i := i + 1;
    }
    return Configured(o);
  }

  // ---------------------------------------------------------------------
  // The window and the frames
  // ---------------------------------------------------------------------

  /**
   * `window_callback::get_window_parameters`: the drawable size, or 0 x 0
   * while the window is minimized, converted to `uint32_t`, with vsync on.
   */
  function WindowParameters(drawableWidth: int, drawableHeight: int, minimized: bool): (p: VulkanContextLegacy.WindowParameters)
    ensures p.vsync
    ensures minimized ==> p.width == 0 && p.height == 0 && DisplayLegacy.Minimized(p)
    ensures !minimized && 0 <= drawableWidth <= UINT32_MAX && 0 <= drawableHeight <= UINT32_MAX ==>
      p.width == drawableWidth && p.height == drawableHeight
  {
    var width := if minimized then 0 else drawableWidth;
    var height := if minimized then 0 else drawableHeight;
    VulkanContextLegacy.WindowParameters(ToU32(width), ToU32(height), true)
  }

  /** `MAX_FRAME_COUNT`: the transfer images the display asks the engine for. */
  const MAX_FRAME_COUNT: nat := 5

  /** The `nonblock` argument of `putf`: only `PUTF_DISCARD` is told apart. */
  datatype PutfMode = PutfDiscard | PutfBlocking | PutfNonblocking

  /**
   * `state_vulkan_sdl2`, with the fields the key bindings and `putf`
   * change. A frame is identified by the id of the transfer image behind
   * it (`images[id]` holds image `id`).
   */
  class Sdl2Display {
    const vulkan: DisplayLegacy.LegacyDisplay
    /** The engine's transfer images: frame `id` is backed by `transferImages[id]`. */
    const transferImages: seq<TransferImageLegacy.LegacyTransferImage>
    /** `vc_deinterlace` over an image's rows, which is not part of this model. */
    const vcDeinterlace: seq<Byte> -> seq<Byte>
    var deinterlace: bool
    var fullscreen: bool
    /** The fullscreen state last requested of SDL. */
    var windowFullscreen: bool
    /** The status passed to `exit_uv`, once it has been called. */
    var exitStatus: Option<int>
    var shouldExit: bool
    var currentDesc: VideoDesc

    ghost predicate Valid()
      reads vulkan`queues, vulkan`descriptions, vulkan`fenceSet, vulkan`inFlight, vulkan`windowSize
    {
      vulkan.Valid()
    }

    constructor (engine: DisplayLegacy.LegacyDisplay, images: seq<TransferImageLegacy.LegacyTransferImage>,
                 deinterlaceRows: seq<Byte> -> seq<Byte>, options: Options)
      ensures vulkan == engine && transferImages == images && vcDeinterlace == deinterlaceRows
      ensures deinterlace == options.deinterlace && fullscreen == options.fullscreen
      ensures windowFullscreen == options.fullscreen && exitStatus.None? && !shouldExit && currentDesc == ZERO_DESC
    {
      vulkan := engine;
      transferImages := images;
      vcDeinterlace := deinterlaceRows;
      deinterlace := options.deinterlace;
      fullscreen := options.fullscreen;
      windowFullscreen := options.fullscreen;
      exitStatus := None;
      shouldExit := false;
      currentDesc := ZERO_DESC;
    }

    /**
     * `display_sdl2_process_key`: 'd' toggles deinterlacing, 'f' toggles
     * fullscreen (and asks SDL for it), 'q' exits with status 0; these
     * are handled and any other key is not, and changes nothing.
     */
    method ProcessKey(key: UgKey) returns (handled: bool)
      modifies this`deinterlace, this`fullscreen, this`windowFullscreen, this`exitStatus
      ensures handled <==> key in {Plain('d' as int), Plain('f' as int), Plain('q' as int)}
      ensures key == Plain('d' as int) ==> deinterlace == !old(deinterlace)
      ensures key != Plain('d' as int) ==> deinterlace == old(deinterlace)
      ensures key == Plain('f' as int) ==> fullscreen == !old(fullscreen) && windowFullscreen == fullscreen
      ensures key != Plain('f' as int) ==> fullscreen == old(fullscreen) && windowFullscreen == old(windowFullscreen)
      ensures exitStatus == if key == Plain('q' as int) then Some(0) else old(exitStatus)
    {
      if key == Plain('d' as int) {
        deinterlace := !deinterlace;
        return true;
      } else if key == Plain('f' as int) {
        fullscreen := !fullscreen;
        windowFullscreen := fullscreen;
        return true;
      } else if key == Plain('q' as int) {
        exitStatus := Some(0);
        return true;
      }
      return false;
    }

    /**
     * `display_sdl2_putf`. `PUTF_DISCARD` gives the frame's image back to
     * the engine. A null frame asks the display to exit and queues an
     * empty image. Any other frame becomes the current description; with
     * deinterlacing on, its image gets `vc_deinterlace` as the callback its
     * `preprocess` runs; then it is queued for display. The result is
     * always 0.
     */
    method Putf(frame: Option<nat>, mode: PutfMode, frameDesc: VideoDesc) returns (r: int)
      requires Valid()
      requires mode == PutfDiscard ==> frame.Some?
      requires frame.Some? ==> frame.value in vulkan.queues.providerImages && frame.value < |transferImages|
      modifies this`shouldExit, this`currentDesc, vulkan`queues, transferImages`preprocessFun
      ensures Valid() && r == 0
      ensures mode != PutfDiscard && frame.Some? && deinterlace ==>
        transferImages[frame.value].preprocessFun == Some(vcDeinterlace)
      ensures forall t :: t in transferImages && !(mode != PutfDiscard && frame.Some? && deinterlace && t == transferImages[frame.value]) ==>
        t.preprocessFun == old(t.preprocessFun)
      ensures mode == PutfDiscard ==>
        && vulkan.queues == old(vulkan.queues).(availableQueue := old(vulkan.queues.availableQueue) + [frame],
                                                providerImages := old(vulkan.queues.providerImages) - multiset{frame.value})
        && shouldExit == old(shouldExit) && currentDesc == old(currentDesc)
      ensures mode != PutfDiscard ==>
        && vulkan.queues == old(vulkan.queues).(filledQueue := old(vulkan.queues.filledQueue) + [frame],
                                                providerImages := old(vulkan.queues.providerImages) - multiset(Display.NonNull(frame)))
        && shouldExit == (old(shouldExit) || frame.None?)
        && currentDesc == if frame.None? then old(currentDesc) else frameDesc
    {
      if mode == PutfDiscard {
        vulkan.DiscardImage(frame.value);
        return 0;
      }
      if frame.None? {
        shouldExit := true;
        var _ := vulkan.QueueImage(None);
        return 0;
      }
      currentDesc := frameDesc;
      if deinterlace {
        TransferImageLegacy.SetProcessFunction(TransferImageLegacy.Image(transferImages[frame.value]), Some(vcDeinterlace));
      }
      var _ := vulkan.QueueImage(frame);
      return 0;
    }
  }
}
