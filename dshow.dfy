/**
 * The DirectShow capture module: the syntax of its arguments, the table
 * mapping DirectShow media subtypes to UltraGrid pixel formats, the
 * sample callback that copies each captured buffer (turning bottom-up
 * pictures the right way up), the grab that swaps the callback's buffer
 * with the one handed out, and the YUYV to RGB conversion with its
 * clamping table.
 */
module DShow {
  import opened Wrappers
  import opened CStrings
  import opened Video

  // ---------------------------------------------------------------------
  // Arguments
  // ---------------------------------------------------------------------

  /** What `process_args` may change in `struct vidcap_dshow_state`. */
  datatype Args = Args(
    deviceNumber: int, deviceName: Option<string>, modeNumber: int,
    width: U32, height: U32, fps: int, colorSpec: Codec)

  /** The state `common_init` leaves on a zero-filled allocation: device 1, mode 0, 640 x 480 at 15. */
  const DEFAULT_ARGS: Args := Args(1, None, 0, 640, 480, 15, CodecNone)

  datatype Step = Next(args: Args) | Fail

  function StripPrefix(tok: string, p: string): string
  {
    if p <= tok then tok[|p|..] else tok
  }

  /** A device: a leading digit gives its number, anything else is its name and the number becomes −1. */
  function Device(a: Args, tok: string): Args
  {
    if tok != [] && IsDigit(tok[0]) then a.(deviceNumber := Atoi(tok))
    else a.(deviceName := Some(tok), deviceNumber := -1)
  }

  /**
   * The check on a width or height: the source stores `atoi` in an
   * `unsigned int` and then tests `<= 0`, which only catches 0; the
   * corrected check refuses every value that is not positive.
   */
  predicate SideRejected(v: int, asWritten: bool)
  {
    if asWritten then ToU32(v) == 0 else !(0 < v <= INT_MAX)
  }

  /** The largest value `atoi` returns; beyond it its result is undefined. */
  const INT_MAX: int := 0x7FFF_FFFF

  /**
   * The second positional token: a mode number, or a pixel format looked
   * up by its UltraGrid name and then by its DirectShow subtype name.
   */
  function ModeToken(a: Args, tok: string, codecFromName: string -> Codec): (r: Step)
    ensures r.Next? && r.args.modeNumber == -1 ==> r.args.colorSpec != CodecNone
  {
    var t := StripPrefix(tok, "Mode");
    if t != [] && IsDigit(t[0]) then Next(a.(modeNumber := Atoi(t)))
    else
      var byName := codecFromName(t);
      var codec := if byName != CodecNone then byName else SubtypeCodecByName(t);
      if codec == CodecNone then Fail else Next(a.(modeNumber := -1, colorSpec := codec))
  }

  /** A width or height token: nothing when the check refuses it, else the `unsigned` value. */
  function SideValue(tok: string, asWritten: bool): (r: Option<U32>)
    ensures r.None? <==> SideRejected(Atoi(tok), asWritten)
    ensures r.Some? ==> r.value == ToU32(Atoi(tok))
    ensures !asWritten && r.Some? ==> 0 < Atoi(tok) <= INT_MAX && r.value == Atoi(tok)
  {
    if SideRejected(Atoi(tok), asWritten) then None else Some(ToU32(Atoi(tok)))
  }

  /**
   * The token at `position` (from 1) of the positional syntax: device,
   * mode or pixel format, then width, height and rate (or "RGB" after a
   * mode number); tokens past the fifth are ignored.
   */
  function Positional(a: Args, position: nat, tok: string, codecFromName: string -> Codec, asWritten: bool): (r: Step)
    ensures position == 2 && r.Next? && r.args.modeNumber == -1 ==> r.args.colorSpec != CodecNone
    ensures position >= 4 && a.modeNumber != -1 ==> r == Next(a)
    ensures position == 3 && a.modeNumber != -1 ==> (r.Next? <==> tok == "RGB")
    ensures position == 3 && a.modeNumber == -1 && !asWritten && r.Next? ==>
      0 < Atoi(tok) <= INT_MAX && r.args == a.(width := Atoi(tok))
    ensures position == 4 && a.modeNumber == -1 && !asWritten && r.Next? ==>
      0 < Atoi(tok) <= INT_MAX && r.args == a.(height := Atoi(tok))
  {
    if position == 1 then Next(Device(a, StripPrefix(tok, "Device")))
    else if position == 2 then ModeToken(a, tok, codecFromName)
    else if position == 3 then
      if a.modeNumber != -1 then (if tok == "RGB" then Next(a.(colorSpec := BGR)) else Fail)
      else match SideValue(tok, asWritten)
        case None => Fail
        case Some(w) => Next(a.(width := w))
    else if position == 4 then
      if a.modeNumber != -1 then Next(a)
      else match SideValue(tok, asWritten)
        case None => Fail
        case Some(h) => Next(a.(height := h))
    else if position == 5 then
      if a.modeNumber != -1 then Next(a)
      else if Atoi(tok) <= 0 then Fail
      else Next(a.(fps := Atoi(tok)))
    else Next(a)
  }

  /** The positional tokens in order from `position`, stopping at the first refused. */
  function RunPositional(a: Args, toks: seq<string>, position: nat, codecFromName: string -> Codec, asWritten: bool): Step
    decreases |toks|
  {
    if toks == [] then Next(a)
    else match Positional(a, position, toks[0], codecFromName, asWritten)
      case Fail => Fail
      case Next(a') => RunPositional(a', toks[1..], position + 1, codecFromName, asWritten)
  }

  /** One token of the key=value syntax: "device=", "mode=" and "RGB"; anything else is ignored. */
  function KeyValue(a: Args, tok: string): Args
  {
    if "device=" <= tok then Device(a, tok[7..])
    else if "mode=" <= tok then a.(modeNumber := Atoi(tok[5..]))
    else if tok == "RGB" then a.(colorSpec := BGR)
    else a
  }

  function RunKeyValue(a: Args, toks: seq<string>): Args
    decreases |toks|
  {
    if toks == [] then a else RunKeyValue(KeyValue(a, toks[0]), toks[1..])
  }

  /** Positive sides and rate: what the width, height and rate checks are for. */
  predicate PositiveFormat(a: Args)
  {
    a.width > 0 && a.height > 0 && a.fps > 0
  }

  /**
   * `process_args`: the key=value syntax when the string holds an `=`,
   * the positional one otherwise. Only the positional syntax can fail.
   */
  function ProcessArgs(fmt: string, codecFromName: string -> Codec, asWritten: bool): (r: Step)
    ensures '=' in fmt ==> r.Next?
  {
    if '=' in fmt then Next(RunKeyValue(DEFAULT_ARGS, Tokens(fmt, ':')))
    else RunPositional(DEFAULT_ARGS, Tokens(fmt, ':'), 1, codecFromName, asWritten)
  }

  /** With the corrected checks every positional step keeps the sides and the rate positive. */
  lemma PositionalKeepsPositive(a: Args, position: nat, tok: string, codecFromName: string -> Codec)
    requires PositiveFormat(a)
    ensures Positional(a, position, tok, codecFromName, false).Next? ==>
      PositiveFormat(Positional(a, position, tok, codecFromName, false).args)
  {
  }

  /** ... and so does every run of them. */
  lemma {:induction false} RunPositionalKeepsPositive(a: Args, toks: seq<string>, position: nat, codecFromName: string -> Codec)
    requires PositiveFormat(a)
    ensures RunPositional(a, toks, position, codecFromName, false).Next? ==>
      PositiveFormat(RunPositional(a, toks, position, codecFromName, false).args)
    decreases |toks|
  {
    if toks != [] {
      PositionalKeepsPositive(a, position, toks[0], codecFromName);
      var s := Positional(a, position, toks[0], codecFromName, false);
      if s.Next? {
        RunPositionalKeepsPositive(s.args, toks[1..], position + 1, codecFromName);
      }
    }
  }

  /** The corrected positional syntax never yields a zero side or rate. */
  lemma ProcessArgsPositive(fmt: string, codecFromName: string -> Codec)
    requires '=' !in fmt
    ensures ProcessArgs(fmt, codecFromName, false).Next? ==> PositiveFormat(ProcessArgs(fmt, codecFromName, false).args)
  {
    RunPositionalKeepsPositive(DEFAULT_ARGS, Tokens(fmt, ':'), 1, codecFromName);
  }

  /**
   * "device:codec:width:height:fps" with a codec known by name and
   * positive numbers selects the device and sets all four.
   */
  lemma FullPositionalFormat(d: nat, name: string, w: nat, h: nat, f: nat, codecFromName: string -> Codec, asWritten: bool)
    requires name != [] && !IsDigit(name[0]) && !("Mode" <= name) && codecFromName(name) != CodecNone
    requires 0 < w <= INT_MAX && 0 < h <= INT_MAX && 0 < f <= INT_MAX
    ensures RunPositional(DEFAULT_ARGS, [NatToString(d), name, NatToString(w), NatToString(h), NatToString(f)], 1, codecFromName, asWritten)
      == Next(DEFAULT_ARGS.(deviceNumber := d, modeNumber := -1, colorSpec := codecFromName(name), width := w, height := h, fps := f))
  {
    var toks := [NatToString(d), name, NatToString(w), NatToString(h), NatToString(f)];
    var a1 := DEFAULT_ARGS.(deviceNumber := d);
    var a2 := a1.(modeNumber := -1, colorSpec := codecFromName(name));
    DeviceStep(DEFAULT_ARGS, d, codecFromName, asWritten);
    CodecStep(a1, name, codecFromName, asWritten);
    RunStep(DEFAULT_ARGS, toks, 1, codecFromName, asWritten, a1);
    RunStep(a1, toks[1..], 2, codecFromName, asWritten, a2);
    assert toks[1..][1..] == [NatToString(w), NatToString(h), NatToString(f)];
    NumbersRun(a2, w, h, f, codecFromName, asWritten);
  }

  lemma NumbersRun(a: Args, w: nat, h: nat, f: nat, codecFromName: string -> Codec, asWritten: bool)
    requires a.modeNumber == -1 && 0 < w <= INT_MAX && 0 < h <= INT_MAX && 0 < f <= INT_MAX
    ensures RunPositional(a, [NatToString(w), NatToString(h), NatToString(f)], 3, codecFromName, asWritten)
      == Next(a.(width := w, height := h, fps := f))
  {
    var toks := [NatToString(w), NatToString(h), NatToString(f)];
    var a3 := a.(width := w);
    var a4 := a3.(height := h);
    var a5 := a4.(fps := f);
    AtoiOfNatToString(w);
    AtoiOfNatToString(h);
    AtoiOfNatToString(f);
    NumberStep(a, 3, toks[0], w, codecFromName, asWritten);
    NumberStep(a3, 4, toks[1], h, codecFromName, asWritten);
    NumberStep(a4, 5, toks[2], f, codecFromName, asWritten);
    RunStep(a, toks, 3, codecFromName, asWritten, a3);
    RunStep(a3, toks[1..], 4, codecFromName, asWritten, a4);
    RunStep(a4, toks[1..][1..], 5, codecFromName, asWritten, a5);
    assert toks[1..][1..][1..] == [];
  }

  lemma DeviceStep(a: Args, d: nat, codecFromName: string -> Codec, asWritten: bool)
    ensures Positional(a, 1, NatToString(d), codecFromName, asWritten) == Next(a.(deviceNumber := d))
  {
    AtoiOfNatToString(d);
    assert IsDigit(NatToString(d)[0]);
    assert !("Device" <= NatToString(d)) by { assert "Device"[0] == 'D'; }
  }

  lemma CodecStep(a: Args, name: string, codecFromName: string -> Codec, asWritten: bool)
    requires name != [] && !IsDigit(name[0]) && !("Mode" <= name) && codecFromName(name) != CodecNone
    ensures Positional(a, 2, name, codecFromName, asWritten) == Next(a.(modeNumber := -1, colorSpec := codecFromName(name)))
  {
  }

  lemma NumberStep(a: Args, position: nat, tok: string, n: nat, codecFromName: string -> Codec, asWritten: bool)
    requires a.modeNumber == -1 && 3 <= position <= 5 && 0 < n <= INT_MAX && Atoi(tok) == n
    ensures Positional(a, position, tok, codecFromName, asWritten) ==
      Next(if position == 3 then a.(width := n) else if position == 4 then a.(height := n) else a.(fps := n))
  {
  }

  /** An accepted first token hands the rest of the run to the next position. */
  lemma RunStep(a: Args, toks: seq<string>, position: nat, codecFromName: string -> Codec, asWritten: bool, a': Args)
    requires toks != [] && Positional(a, position, toks[0], codecFromName, asWritten) == Next(a')
    ensures RunPositional(a, toks, position, codecFromName, asWritten) == RunPositional(a', toks[1..], position + 1, codecFromName, asWritten)
  {
  }

  lemma AtoiOfNegative(n: nat)
    ensures Atoi("-" + NatToString(n)) == -(n as int)
  {
    AtoiOfDigits(NatToString(n), true);
    ValueOfNatToString(n);
  }

  /**
   * As written, a negative width is accepted: "-640" passes the check
   * and the width becomes 2^32 − 640 (`AtoiOfNegative` reads "-n" as −n).
   * The corrected check refuses it.
   */
  lemma NegativeWidthAccepted(a: Args, tok: string, codecFromName: string -> Codec)
    requires a.modeNumber == -1 && -UINT32_MODULUS < Atoi(tok) < 0
    ensures Positional(a, 3, tok, codecFromName, true) == Next(a.(width := UINT32_MODULUS + Atoi(tok)))
  {
    WrapsNegative(-Atoi(tok));
  }

  /** Storing −n in an `unsigned int` gives 2^32 − n. */
  lemma WrapsNegative(n: nat)
    requires 0 < n < UINT32_MODULUS
    ensures ToU32(-(n as int)) == UINT32_MODULUS - n && !SideRejected(-(n as int), true)
  {
  }

  /** The corrected check refuses every negative width. */
  lemma NegativeWidthRefused(a: Args, n: nat, codecFromName: string -> Codec)
    requires a.modeNumber == -1
    ensures Positional(a, 3, "-" + NatToString(n), codecFromName, false) == Fail
  {
    AtoiOfNegative(n);
  }

  /** "DeviceN" selects device number N. */
  lemma DeviceByNumber(a: Args, n: nat, codecFromName: string -> Codec, asWritten: bool)
    ensures Positional(a, 1, "Device" + NatToString(n), codecFromName, asWritten) == Next(a.(deviceNumber := n))
  {
    var tok := "Device" + NatToString(n);
    assert "Device" <= tok && tok[6..] == NatToString(n);
    AtoiOfNatToString(n);
  }

  /** The argument loops as the source runs them, token by token. */
  method ProcessArgsLoop(fmt: string, codecFromName: string -> Codec, asWritten: bool) returns (r: Step)
    ensures r == ProcessArgs(fmt, codecFromName, asWritten)
  {
    var toks := Tokens(fmt, ':');
    if '=' !in fmt {
      r := PositionalLoop(toks, codecFromName, asWritten);
    } else {
      var a := KeyValueLoop(toks);
      r := Next(a);
    }
  }

  /** The `strtok` loop of the positional syntax, stopping at the first refused token. */
  method PositionalLoop(toks: seq<string>, codecFromName: string -> Codec, asWritten: bool) returns (r: Step)
    ensures r == RunPositional(DEFAULT_ARGS, toks, 1, codecFromName, asWritten)
  {
    var a := DEFAULT_ARGS;
    var i := 0;
    while i < |toks|
      invariant i <= |toks|
      invariant RunPositional(a, toks[i..], i + 1, codecFromName, asWritten) == RunPositional(DEFAULT_ARGS, toks, 1, codecFromName, asWritten)
    {
      assert toks[i..][1..] == toks[i + 1..];
      var step := Positional(a, i + 1, toks[i], codecFromName, asWritten);
      if step.Fail? {
        return Fail;
      }
      a := step.args;
      i := i + 1;
    }
    return Next(a);
  }

  /** The `strtok` loop of the key=value syntax, which never fails. */
  method KeyValueLoop(toks: seq<string>) returns (a: Args)
    ensures a == RunKeyValue(DEFAULT_ARGS, toks)
  {
    a := DEFAULT_ARGS;
    var i := 0;
    while i < |toks|
      invariant i <= |toks|
      invariant RunKeyValue(a, toks[i..]) == RunKeyValue(DEFAULT_ARGS, toks)
    {
      assert toks[i..][1..] == toks[i + 1..];
      a := KeyValue(a, toks[i]);
      i := i + 1;
    }
  }

  // ---------------------------------------------------------------------
  // Subtype table
  // ---------------------------------------------------------------------

  /**
   * A GUID: its first field, and its remaining fields abstracted to one
   * number per distinct tail.
   */
  datatype Guid = Guid(data1: U32, tail: nat)

  /** Tail of the FourCC subtypes, -0000-0010-8000-00AA00389B71. */
  const FOURCC_TAIL: nat := 0
  /** Tail of the RGB subtypes, -524F-11CE-9F53-0020AF0BA770. */
  const RGB_TAIL: nat := 1
  /** Tail of the ARGB32 subtype, -3274-11D0-B724-00AA006C1A01. */
  const ARGB_TAIL: nat := 2
  const GUID_NULL: Guid := Guid(0, 3)

  /** An entry of `BitCountMap`. */
  datatype SubtypeEntry = SubtypeEntry(guid: Guid, bitCount: nat, name: string, codec: Codec)

  /** `BitCountMap`, ended by the `GUID_NULL` entry "UNKNOWN". */
  const SUBTYPES: seq<SubtypeEntry> := [
    SubtypeEntry(Guid(0xE436EB78, RGB_TAIL), 1, "RGB Monochrome", CodecNone),
    SubtypeEntry(Guid(0xE436EB79, RGB_TAIL), 4, "RGB VGA", CodecNone),
    SubtypeEntry(Guid(0xE436EB7A, RGB_TAIL), 8, "RGB 8", CodecNone),
    SubtypeEntry(Guid(0xE436EB7B, RGB_TAIL), 16, "RGB 565 (16 bit)", CodecNone),
    SubtypeEntry(Guid(0xE436EB7C, RGB_TAIL), 16, "RGB 555 (16 bit)", CodecNone),
    SubtypeEntry(Guid(0xE436EB7D, RGB_TAIL), 24, "RGB 24", BGR),
    SubtypeEntry(Guid(0xE436EB7E, RGB_TAIL), 32, "RGB 32", RGBA),
    SubtypeEntry(Guid(0x773C9AC0, ARGB_TAIL), 32, "ARGB 32", CodecNone),
    SubtypeEntry(Guid(0xE436EB7F, RGB_TAIL), 0, "Overlay", CodecNone),
    SubtypeEntry(Guid(0x30323449, FOURCC_TAIL), 12, "I420", CodecNone),
    SubtypeEntry(Guid(0x32595559, FOURCC_TAIL), 12, "YUY2", YUYV),
    SubtypeEntry(Guid(0x30313272, FOURCC_TAIL), 12, "r210", CodecNone),
    SubtypeEntry(Guid(0x30313276, FOURCC_TAIL), 12, "v210", V210),
    SubtypeEntry(Guid(0x30313256, FOURCC_TAIL), 12, "V210", V210),
    SubtypeEntry(Guid(0x59565955, FOURCC_TAIL), 12, "UYVY", UYVY),
    SubtypeEntry(Guid(0x43594448, FOURCC_TAIL), 12, "HDYC", UYVY),
    SubtypeEntry(Guid(0x47504A4D, FOURCC_TAIL), 0, "MJPG", MJPG),
    SubtypeEntry(GUID_NULL, 0, "UNKNOWN", CodecNone)
  ]

  const UNKNOWN_INDEX: nat := |SUBTYPES| - 1

  /** The position of the first entry from `k` whose GUID is `g` or `GUID_NULL`. */
  function SubtypeIndexFrom(g: Guid, k: nat): (i: nat)
    requires k < |SUBTYPES|
    ensures k <= i < |SUBTYPES| && (SUBTYPES[i].guid == g || i == UNKNOWN_INDEX)
    ensures forall j :: k <= j < i ==> SUBTYPES[j].guid != g
    decreases |SUBTYPES| - k
  {
    if SUBTYPES[k].guid == g || SUBTYPES[k].guid == GUID_NULL then k
    else SubtypeIndexFrom(g, k + 1)
  }

  function SubtypeIndex(g: Guid): nat
  {
    SubtypeIndexFrom(g, 0)
  }

  /** `LocateSubtype`: the scan stops at the first match or at the `GUID_NULL` entry. */
  method LocateSubtype(g: Guid) returns (i: nat)
    ensures i < |SUBTYPES| && (SUBTYPES[i].guid == g || i == UNKNOWN_INDEX)
    ensures forall j :: 0 <= j < i ==> SUBTYPES[j].guid != g
    ensures i == SubtypeIndex(g)
  {
    i := 0;
    while !(SUBTYPES[i].guid == g || SUBTYPES[i].guid == GUID_NULL)
      invariant i < |SUBTYPES| && SubtypeIndexFrom(g, i) == SubtypeIndex(g)
      invariant forall j :: 0 <= j < i ==> SUBTYPES[j].guid != g
      decreases |SUBTYPES| - i
    {
      i := i + 1;
    }
  }

  /** Every GUID of the table appears once. */
  lemma GuidsDistinct()
    ensures forall i, j :: 0 <= i < j < |SUBTYPES| ==> SUBTYPES[i].guid != SUBTYPES[j].guid
  {
  }

  /** Looking up a GUID of the table finds its own entry. */
  lemma LocateFindsEntry(i: nat)
    requires i < |SUBTYPES|
    ensures SubtypeIndex(SUBTYPES[i].guid) == i
  {
    GuidsDistinct();
    var r := SubtypeIndex(SUBTYPES[i].guid);
    assert r <= i;
  }

  /** `get_ug_codec`: the pixel format of the subtype's entry. */
  function UgCodec(g: Guid): (c: Codec)
    ensures c != CodecNone ==> SUBTYPES[SubtypeIndex(g)].guid == g
  {
    SUBTYPES[SubtypeIndex(g)].codec
  }

  /** A GUID the table does not list has no pixel format. */
  lemma UnlistedGuidHasNoCodec(g: Guid)
    requires forall i :: 0 <= i < |SUBTYPES| ==> SUBTYPES[i].guid != g
    ensures SubtypeIndex(g) == UNKNOWN_INDEX && UgCodec(g) == CodecNone
  {
  }

  /** The codec of the first entry named `name`, or none. */
  function SubtypeCodecByNameFrom(name: string, k: nat): (c: Codec)
    requires k <= |SUBTYPES|
    ensures c != CodecNone ==> exists i :: k <= i < |SUBTYPES| && SUBTYPES[i].name == name && SUBTYPES[i].codec == c
    decreases |SUBTYPES| - k
  {
    if k == |SUBTYPES| then CodecNone
    else if SUBTYPES[k].name == name then SUBTYPES[k].codec
    else SubtypeCodecByNameFrom(name, k + 1)
  }

  function SubtypeCodecByName(name: string): Codec
  {
    SubtypeCodecByNameFrom(name, 0)
  }

  /** `get_ug_from_subtype_name`: the first entry with the name gives the codec; no entry gives none. */
  method GetUgFromSubtypeName(name: string) returns (c: Codec)
    ensures c == SubtypeCodecByName(name)
    ensures (forall i :: 0 <= i < |SUBTYPES| ==> SUBTYPES[i].name != name) ==> c == CodecNone
  {
    var i := 0;
    while i < |SUBTYPES|
      invariant i <= |SUBTYPES| && SubtypeCodecByNameFrom(name, i) == SubtypeCodecByName(name)
      invariant forall j :: 0 <= j < i ==> SUBTYPES[j].name != name
    {
      if SUBTYPES[i].name == name {
        return SUBTYPES[i].codec;
      }
      i := i + 1;
    }
    return CodecNone;
  }

  /** Every name of the table appears once. */
  lemma NamesDistinct()
    ensures forall i, j :: 0 <= i < j < |SUBTYPES| ==> SUBTYPES[i].name != SUBTYPES[j].name
  {
  }

  /** A subtype name of the table gives its entry's pixel format. */
  lemma {:induction false} NameLookupFindsEntry(i: nat, k: nat)
    requires k <= i < |SUBTYPES|
    ensures SubtypeCodecByNameFrom(SUBTYPES[i].name, k) == SUBTYPES[i].codec
    decreases i - k
  {
    if k < i {
      NamesDistinct();
      NameLookupFindsEntry(i, k + 1);
    }
  }

  /** Byte `i` (from 0, least significant first) of a 32-bit value: its `i`-th byte in memory. */
  function ByteOf(x: U32, i: nat): nat
  {
    if i == 0 then x % 256
    else if i == 1 then x / 256 % 256
    else if i == 2 then x / 65536 % 256
    else x / 16777216 % 256
  }

  /**
   * The first four bytes of a 32-bit value in memory order (little-endian),
   * up to the first NUL: the buffer's fifth byte is always NUL.
   */
  function FourCC(data1: U32): (s: string)
    ensures |s| <= 4
    ensures forall i :: 0 <= i < |s| ==> s[i] != 0 as char && s[i] as nat == ByteOf(data1, i)
    ensures |s| < 4 ==> ByteOf(data1, |s|) == 0
  {
    var bytes := seq(4, i requires 0 <= i < 4 => ByteOf(data1, i) as char);
    UpToNul(bytes)
  }

  /** The characters before the first NUL. */
  function UpToNul(s: string): (r: string)
    ensures r <= s && forall i :: 0 <= i < |r| ==> r[i] != 0 as char
    ensures |r| < |s| ==> s[|r|] == 0 as char
  {
    if s == [] || s[0] == 0 as char then [] else [s[0]] + UpToNul(s[1..])
  }

  /**
   * `GetSubtypeName`: the FourCC for a subtype the table does not list,
   * the UltraGrid name of the pixel format when there is one, and the
   * table's own name otherwise.
   */
  function SubtypeName(g: Guid, codecName: Codec -> string): (s: string)
    ensures SubtypeIndex(g) == UNKNOWN_INDEX ==> s == FourCC(g.data1)
    ensures SubtypeIndex(g) != UNKNOWN_INDEX && UgCodec(g) != CodecNone ==> s == codecName(UgCodec(g))
    ensures SubtypeIndex(g) != UNKNOWN_INDEX && UgCodec(g) == CodecNone ==> s == SUBTYPES[SubtypeIndex(g)].name
  {
    var i := SubtypeIndex(g);
    if i == UNKNOWN_INDEX then FourCC(g.data1)
    else if SUBTYPES[i].codec != CodecNone then codecName(SUBTYPES[i].codec)
    else SUBTYPES[i].name
  }

  /** The YUY2 subtype is named by its FourCC characters' pixel format. */
  lemma Yuy2IsYuyv(codecName: Codec -> string)
    ensures UgCodec(Guid(0x32595559, FOURCC_TAIL)) == YUYV
    ensures SubtypeName(Guid(0x32595559, FOURCC_TAIL), codecName) == codecName(YUYV)
  {
    LocateFindsEntry(10);
  }

  // ---------------------------------------------------------------------
  // Sample callback and grab
  // ---------------------------------------------------------------------

  /**
   * The bytes taken by `rows` rows of `linesize` bytes: `rows * linesize`
   * (`BytesIsProduct`), counted row by row.
   */
  function Bytes(rows: nat, linesize: nat): nat
  {
    if rows == 0 then 0 else Bytes(rows - 1, linesize) + linesize
  }

  lemma {:induction false} BytesIsProduct(rows: nat, linesize: nat)
    ensures Bytes(rows, linesize) == rows * linesize
  {
    if rows > 0 {
      BytesIsProduct(rows - 1, linesize);
    }
  }

  /** More rows take at least as many bytes. */
  lemma {:induction false} BytesMonotone(i: nat, k: nat, linesize: nat)
    requires i <= k
    ensures Bytes(i, linesize) <= Bytes(k, linesize)
    decreases k
  {
    if i < k {
      BytesMonotone(i, k - 1, linesize);
    }
  }

  /** Row `i` of a picture of rows of `linesize` bytes. */
  function Row(s: seq<Byte>, i: nat, linesize: nat): seq<Byte>
    requires Bytes(i + 1, linesize) <= |s|
  {
    s[Bytes(i, linesize)..Bytes(i + 1, linesize)]
  }

  /** Rows `height − 1` down to `height − n` of `s`, each passed through `f`. */
  function Flipped(s: seq<Byte>, height: nat, linesize: nat, f: seq<Byte> -> seq<Byte>, n: nat): (r: seq<Byte>)
    requires n <= height && Bytes(height, linesize) <= |s|
    requires forall row :: |f(row)| == |row|
    ensures |r| == Bytes(n, linesize)
  {
    if n == 0 then []
    else
      BytesMonotone(height - n + 1, height, linesize);
      Flipped(s, height, linesize, f, n - 1) + f(Row(s, height - n, linesize))
  }

  /** Row `j` of the flipped picture is row `height − 1 − j` of the original. */
  lemma {:induction false} FlippedRow(s: seq<Byte>, height: nat, linesize: nat, f: seq<Byte> -> seq<Byte>, n: nat, j: nat)
    requires n <= height && Bytes(height, linesize) <= |s|
    requires forall row :: |f(row)| == |row|
    requires j < n
    ensures Bytes(j + 1, linesize) <= |Flipped(s, height, linesize, f, n)|
    ensures Bytes(height - j, linesize) <= |s|
    ensures Row(Flipped(s, height, linesize, f, n), j, linesize) == f(Row(s, height - 1 - j, linesize))
    decreases n
  {
    BytesMonotone(j + 1, n, linesize);
    BytesMonotone(height - j, height, linesize);
    BytesMonotone(height - n + 1, height, linesize);
    var prefix := Flipped(s, height, linesize, f, n - 1);
    var last := f(Row(s, height - n, linesize));
    assert Flipped(s, height, linesize, f, n) == prefix + last;
    if j < n - 1 {
      FlippedRow(s, height, linesize, f, n - 1, j);
      SliceInPrefix(prefix, last, Bytes(j, linesize), Bytes(j + 1, linesize));
    } else {
      SliceIsSuffix(prefix, last);
    }
  }

  lemma SliceInPrefix(a: seq<Byte>, b: seq<Byte>, i: nat, k: nat)
    requires i <= k <= |a|
    ensures (a + b)[i..k] == a[i..k]
  {
  }

  lemma SliceIsSuffix(a: seq<Byte>, b: seq<Byte>)
    ensures (a + b)[|a|..|a| + |b|] == b
  {
  }

  /** `realloc` to `len` bytes: the common prefix stays; new bytes are modelled as zero. */
  function Resized(b: seq<Byte>, len: nat): (r: seq<Byte>)
    ensures |r| == len
  {
    if len <= |b| then b[..len] else b + seq(len - |b|, _ => 0)
  }

  function Identity(row: seq<Byte>): seq<Byte> { row }

  datatype GrabResult = Waiting | Exited | Frame(data: seq<Byte>, dataLen: int)

  /**
   * The part of `struct vidcap_dshow_state` the callback and the grab
   * share. `sectionDepth` counts how often the callback's thread holds
   * `returnBufferCS` when no call of it is running; `wakeups` counts the
   * wakes of `grabWaitCV`.
   */
  class Grabber {
    var desc: VideoDesc
    var grabBuffer: seq<Byte>
    var grabBufferLen: int
    var returnBuffer: seq<Byte>
    var returnBufferLen: int
    var haveNewReturnBuffer: bool
    var shouldExit: bool
    var sectionDepth: nat
    var wakeups: nat
    var frames: nat

    ghost predicate Valid()
      reads this`grabBuffer, this`grabBufferLen, this`returnBuffer, this`returnBufferLen
    {
      |grabBuffer| == grabBufferLen && |returnBuffer| == returnBufferLen
    }

    constructor (d: VideoDesc)
      ensures Valid() && desc == d && grabBuffer == [] && returnBuffer == []
      ensures !haveNewReturnBuffer && !shouldExit && sectionDepth == 0 && wakeups == 0 && frames == 0
    {
      desc := d;
      grabBuffer := [];
      grabBufferLen := 0;
      returnBuffer := [];
      returnBufferLen := 0;
      haveNewReturnBuffer := false;
      shouldExit := false;
      sectionDepth := 0;
      wakeups := 0;
      frames := 0;
    }

    /**
     * `BufferCB` for a sample: an empty sample is ignored. Otherwise the
     * grab buffer takes the sample's length (`allocates` says whether the
     * `realloc` succeeds); a BGR or RGBA picture is copied bottom row
     * first, each RGBA row through `copyRgba`, anything else as it is.
     * The grabber is woken only when no new buffer was waiting. As written
     * a failing `realloc` returns with the critical section still held.
     */
    method BufferCB(sample: seq<Byte>, linesize: nat, allocates: bool, copyRgba: seq<Byte> -> seq<Byte>, asWritten: bool)
      requires Valid()
      requires forall row :: |copyRgba(row)| == |row|
      requires desc.colorSpec in {BGR, RGBA} ==> Bytes(desc.height, linesize) <= |sample|
      modifies this`grabBuffer, this`grabBufferLen, this`haveNewReturnBuffer, this`sectionDepth, this`wakeups
      ensures Valid()
      ensures sample == [] ==> unchanged(this)
      ensures var failed := sample != [] && old(grabBufferLen) != |sample| && !allocates;
        && (failed ==> grabBuffer == [] && haveNewReturnBuffer == old(haveNewReturnBuffer) && wakeups == old(wakeups))
        && sectionDepth == old(sectionDepth) + (if failed && asWritten then 1 else 0)
      ensures sample != [] && (old(grabBufferLen) == |sample| || allocates) ==>
        && |grabBuffer| == |sample| && haveNewReturnBuffer
        && wakeups == old(wakeups) + (if old(haveNewReturnBuffer) then 0 else 1)
        && (desc.colorSpec == BGR ==>
              grabBuffer[..Bytes(desc.height, linesize)] == Flipped(sample, desc.height, linesize, Identity, desc.height))
        && (desc.colorSpec == RGBA ==>
              grabBuffer[..Bytes(desc.height, linesize)] == Flipped(sample, desc.height, linesize, copyRgba, desc.height))
        && (desc.colorSpec !in {BGR, RGBA} ==> grabBuffer == sample)
    {
      if |sample| == 0 {
        return;
      }
      sectionDepth := sectionDepth + 1;
      if grabBufferLen != |sample| {
        if !allocates {
          grabBuffer := [];
          grabBufferLen := 0;
          if !asWritten {
            sectionDepth := sectionDepth - 1;
          }
          return;
        }
        grabBuffer := Resized(grabBuffer, |sample|);
        grabBufferLen := |sample|;
      }
      if desc.colorSpec == BGR || desc.colorSpec == RGBA {
        var f := if desc.colorSpec == BGR then Identity else copyRgba;
        var picture := FlipRows(sample, desc.height, linesize, f);
        grabBuffer := picture + grabBuffer[|picture|..];
      } else {
        grabBuffer := sample;
      }
      var grabMightWait := false;
      if !haveNewReturnBuffer {
        grabMightWait := true;
        haveNewReturnBuffer := true;
      }
      sectionDepth := sectionDepth - 1;
      if grabMightWait {
        wakeups := wakeups + 1;
      }
    }

    /**
     * `vidcap_dshow_grab`: blocked while the callback's thread holds the
     * critical section or no new buffer has arrived; nothing once the
     * capture is told to exit; otherwise the two buffers and their lengths
     * change places and the new return buffer is the frame's data, of its
     * buffer length for a compressed format and `datalen` otherwise.
     */
    method Grab(compressed: bool, datalen: int) returns (r: GrabResult)
      requires Valid()
      modifies this`grabBuffer, this`grabBufferLen, this`returnBuffer, this`returnBufferLen, this`haveNewReturnBuffer, this`frames
      ensures Valid()
      ensures sectionDepth > 0 || (!old(haveNewReturnBuffer) && !shouldExit) ==> r == Waiting && unchanged(this)
      ensures sectionDepth == 0 && old(haveNewReturnBuffer) && !shouldExit ==>
        && grabBuffer == old(returnBuffer) && returnBuffer == old(grabBuffer)
        && grabBufferLen == old(returnBufferLen) && returnBufferLen == old(grabBufferLen)
        && !haveNewReturnBuffer && frames == old(frames) + 1
        && r == Frame(returnBuffer, if compressed then returnBufferLen else datalen)
      ensures sectionDepth == 0 && shouldExit ==> r == Exited && unchanged(this)
    {
      if sectionDepth > 0 || (!haveNewReturnBuffer && !shouldExit) {
        return Waiting;
      }
      if shouldExit {
        return Exited;
      }
      returnBuffer, grabBuffer := grabBuffer, returnBuffer;
      returnBufferLen, grabBufferLen := grabBufferLen, returnBufferLen;
      haveNewReturnBuffer := false;
      frames := frames + 1;
      r := Frame(returnBuffer, if compressed then returnBufferLen else datalen);
    }

    /** `vidcap_dshow_should_exit`: sets the flag and wakes the grabber, unless the section is held. */
    method ShouldExit() returns (done: bool)
      modifies this`shouldExit, this`wakeups
      ensures done == (sectionDepth == 0)
      ensures done ==> shouldExit && wakeups == old(wakeups) + 1
      ensures !done ==> unchanged(this)
    {
      if sectionDepth > 0 {
        return false;
      }
      shouldExit := true;
      wakeups := wakeups + 1;
      return true;
    }
  }

  /**
   * The row loop of `BufferCB`: output row `i` from input row
   * `height − 1 − i`, which is the picture `Flipped` describes (see
   * `FlippedRow`).
   */
  method FlipRows(sample: seq<Byte>, height: nat, linesize: nat, f: seq<Byte> -> seq<Byte>) returns (picture: seq<Byte>)
    requires Bytes(height, linesize) <= |sample|
    requires forall row :: |f(row)| == |row|
    ensures picture == Flipped(sample, height, linesize, f, height)
    ensures |picture| == Bytes(height, linesize)
  {
    picture := [];
    var i := 0;
    while i < height
      invariant i <= height && picture == Flipped(sample, height, linesize, f, i)
    {
      BytesMonotone(height - i, height, linesize);
      picture := picture + f(Row(sample, height - i - 1, linesize));
      i := i + 1;
    }
  }

  // ---------------------------------------------------------------------
  // YUYV to RGB
  // ---------------------------------------------------------------------

  const MAX_YUV_CLAMP: int := 535
  const MIN_YUV_CLAMP: int := -276
  const CLAMP_TABLE_SIZE: nat := 812

  /** A value limited to 0..255. */
  function Clamp255(v: int): (r: int)
    ensures 0 <= r <= 255
    ensures 0 <= v <= 255 ==> r == v
    ensures v < 0 ==> r == 0
    ensures v > 255 ==> r == 255
  {
    if v < 0 then 0 else if v > 255 then 255 else v
  }

  /**
   * The `yuv_clamp` table: 0 for the values up to 0, then 1 to 254, then
   * 255, entry `v − MIN_YUV_CLAMP` for value `v`. As written the last
   * loop stops one short and entry 811 is never written (`None`); the
   * corrected loop fills it.
   */
  method BuildClampTable(asWritten: bool) returns (table: array<Option<int>>)
    ensures fresh(table) && table.Length == CLAMP_TABLE_SIZE
    ensures forall i :: 0 <= i <= 276 ==> table[i] == Some(0)
    ensures forall i :: 277 <= i <= 530 ==> table[i] == Some(i - 276)
    ensures forall i :: 531 <= i < 811 ==> table[i] == Some(255)
    ensures table[811] == if asWritten then None else Some(255)
    ensures !asWritten ==> forall v :: MIN_YUV_CLAMP <= v <= MAX_YUV_CLAMP ==> table[v - MIN_YUV_CLAMP] == Some(Clamp255(v))
  {
    table := new Option<int>[CLAMP_TABLE_SIZE](_ => None);
    var i := 0;
    while i + MIN_YUV_CLAMP <= 0
      invariant 0 <= i <= 277
      invariant forall k :: 0 <= k < i ==> table[k] == Some(0)
      invariant forall k :: i <= k < CLAMP_TABLE_SIZE ==> table[k] == None
    {
      table[i] := Some(0);
      i := i + 1;
    }
    var j := 1;
    while j <= 254
      invariant 1 <= j <= 255 && i == 276 + j
      invariant forall k :: 0 <= k <= 276 ==> table[k] == Some(0)
      invariant forall k :: 277 <= k < i ==> table[k] == Some(k - 276)
      invariant forall k :: i <= k < CLAMP_TABLE_SIZE ==> table[k] == None
    {
      table[i] := Some(j);
      j := j + 1;
      i := i + 1;
    }
    var end := if asWritten then MAX_YUV_CLAMP - MIN_YUV_CLAMP else MAX_YUV_CLAMP - MIN_YUV_CLAMP + 1;
    while i < end
      invariant 531 <= i <= end
      invariant forall k :: 0 <= k <= 276 ==> table[k] == Some(0)
      invariant forall k :: 277 <= k <= 530 ==> table[k] == Some(k - 276)
      invariant forall k :: 531 <= k < i ==> table[k] == Some(255)
      invariant forall k :: i <= k < CLAMP_TABLE_SIZE ==> table[k] == None
    {
      table[i] := Some(255);
      i := i + 1;
    }
  }

  /** `>> 8` on an `int`: an arithmetic shift, rounding down. */
  function Shift8(x: int): int
  {
    x / 256
  }

  /** The three values `convert_yuv_rgb` looks up, before clamping. */
  function Channels(y: Byte, u: Byte, v: Byte): (int, int, int)
  {
    var yy := (y as int - 16) * 298;
    var uu := u as int - 128;
    var vv := v as int - 128;
    (Shift8(yy + uu * 516 + 128), Shift8(yy - uu * 100 - vv * 208 + 128), Shift8(yy + 409 * vv + 128))
  }

  /** The channel values stay within −277..534, −171..432 and −223..481. */
  lemma ChannelRanges(y: Byte, u: Byte, v: Byte)
    ensures var (c0, c1, c2) := Channels(y, u, v);
      -277 <= c0 <= 534 && -171 <= c1 <= 432 && -223 <= c2 <= 481
  {
  }

  /**
   * As written the table is indexed by the value itself: Y = U = 0 looks
   * up entry −277, before the table. Even offset by `MIN_YUV_CLAMP` that
   * value falls one entry short of the table, which starts at −276.
   */
  lemma ClampIndexAsWritten()
    ensures Channels(0, 0, 0).0 == -277 && Channels(0, 0, 0).0 < 0
    ensures Channels(0, 0, 0).0 - MIN_YUV_CLAMP == -1
  {
  }

  /** `convert_yuv_rgb` as intended: each channel value clamped to 0..255. */
  function ConvertYuvRgb(y: Byte, u: Byte, v: Byte): (rgb: seq<Byte>)
    ensures |rgb| == 3
    ensures rgb[0] as int == Clamp255(Channels(y, u, v).0)
    ensures rgb[1] as int == Clamp255(Channels(y, u, v).1)
    ensures rgb[2] as int == Clamp255(Channels(y, u, v).2)
  {
    var (c0, c1, c2) := Channels(y, u, v);
    [Clamp255(c0) as Byte, Clamp255(c1) as Byte, Clamp255(c2) as Byte]
  }

  /** Where the corrected table covers a value, its entry is the clamped value. */
  lemma CorrectedTableClamps(table: seq<Option<int>>, v: int)
    requires |table| == CLAMP_TABLE_SIZE
    requires forall w :: MIN_YUV_CLAMP <= w <= MAX_YUV_CLAMP ==> table[w - MIN_YUV_CLAMP] == Some(Clamp255(w))
    requires -276 <= v <= 534
    ensures table[v - MIN_YUV_CLAMP] == Some(Clamp255(v))
  {
  }

  /** The two pixels of a YUYV group `Y0 U Y1 V`. */
  function ConvertGroup(g: seq<Byte>): (rgb: seq<Byte>)
    requires |g| == 4
    ensures |rgb| == 6
  {
    ConvertYuvRgb(g[0], g[1], g[3]) + ConvertYuvRgb(g[2], g[1], g[3])
  }

  function ConvertAll(src: seq<Byte>): (rgb: seq<Byte>)
    requires |src| % 4 == 0
  {
    if src == [] then [] else ConvertAll(src[..|src| - 4]) + ConvertGroup(src[|src| - 4..])
  }

  lemma NextGroupFits(i: nat, n: nat)
    requires i % 4 == 0 && n % 4 == 0 && i < n
    ensures i + 4 <= n
  {
  }

  /** Six output bytes for every four input bytes. */
  lemma {:induction false} ConvertAllLength(src: seq<Byte>)
    requires |src| % 4 == 0
    ensures |ConvertAll(src)| * 4 == |src| * 6
    decreases |src|
  {
    if src != [] {
      ConvertAllLength(src[..|src| - 4]);
    }
  }

  lemma ConvertAllStep(src: seq<Byte>, i: nat)
    requires i % 4 == 0 && i + 4 <= |src|
    ensures (i + 4) % 4 == 0
    ensures ConvertAll(src[..i + 4]) == ConvertAll(src[..i]) + ConvertGroup(src[i..i + 4])
  {
    assert src[..i + 4][..i] == src[..i] && src[..i + 4][i..] == src[i..i + 4];
  }

  /** `convert_yuyv_rgb`: every four input bytes become six output bytes, group by group. */
  method ConvertYuyvRgb(src: seq<Byte>) returns (rgb: seq<Byte>)
    requires |src| % 4 == 0
    ensures rgb == ConvertAll(src)
    ensures |rgb| * 4 == |src| * 6
  {
    ConvertAllLength(src);
    rgb := [];
    var i := 0;
    while i < |src|
      invariant i <= |src| && i % 4 == 0 && rgb == ConvertAll(src[..i])
    {
      NextGroupFits(i, |src|);
      ConvertAllStep(src, i);
      rgb := rgb + ConvertGroup(src[i..i + 4]);
      i := i + 4;
    }
    assert src[..|src|] == src;
  }
}
