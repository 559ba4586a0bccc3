// The chain of video output postprocessors (src/vo_postprocess.c): the
// `-p` configuration is split into filters, each filter is loaded and
// initialised, and the chain threads descriptions and frames from one
// filter to the next. Filters themselves are abstract: each is a record
// of callbacks over its own state handle.

module Postprocess {
  import opened Wrappers
  import opened CStrings
  import opened Video

  /** A `struct video_frame *`: its identity, and the first tile's width and the codec, which give its line size. */
  datatype Frame = Frame(id: nat, width: U32, colorSpec: Codec)

  /** `display_mode` reported by a filter; `DISPLAY_PROPERTY_VIDEO_MERGED` is the simple one. */
  datatype DisplayMode = Merged | OtherMode(code: int)

  /** What a filter's `get_out_desc` writes: the output description, display mode and output frame count. */
  datatype OutInfo = OutInfo(desc: VideoDesc, displayMode: DisplayMode, outFrames: int)

  /** The properties `vo_postprocess_get_property` distinguishes. */
  datatype Property = DoesChangeTilingMode | Codecs | OtherProperty(code: int)

  /**
   * The `void *` handed to a filter's `get_property`: either the chain's
   * wrapper record of the filter at some position, or the filter's own state.
   */
  datatype PropertyArg = WrapperOf(position: nat) | FilterState(state: nat)

  /**
   * `struct vo_postprocess_info`: the callbacks of a loaded module.
   * `outInfo` answers from the description the filter was last
   * reconfigured with (None before any reconfiguration).
   */
  datatype Funcs = Funcs(
    init: string -> Option<nat>,
    reconfigure: (nat, VideoDesc) -> bool,
    outInfo: (nat, Option<VideoDesc>) -> OutInfo,
    getf: nat -> Option<Frame>,
    process: (nat, Option<Frame>, Frame, int) -> bool,
    getProperty: (PropertyArg, Property) -> bool)

  /**
   * `struct vo_postprocess_state_single`: the callbacks, the filter's state
   * handle, its frame `f`, and the description it was last reconfigured with.
   */
  datatype Filter = Filter(funcs: Funcs, state: nat, f: Option<Frame>, configuredWith: Option<VideoDesc>)

  // ---------------------------------------------------------------------
  // Configuration string
  // ---------------------------------------------------------------------

  /** One `,`-separated item: the module name before the first `:`, and the options after it ("" when there is none). */
  function SplitItem(item: string): (r: (string, string))
    ensures ':' !in r.0
    ensures ':' in item ==> item == r.0 + [':'] + r.1
    ensures ':' !in item ==> r == (item, "")
  {
    match Find(item, ':')
    case None => (item, "")
    case Some(i) => SplitAround(item, i); (item[..i], item[i + 1..])
  }

  lemma SplitAround(s: string, i: nat)
    requires i < |s|
    ensures s == s[..i] + [s[i]] + s[i + 1..]
  {
    assert s == s[..i] + s[i..];
  }

  /** Splitting a name without `:` joined to options gives both back. */
  lemma SplitItemOfJoin(name: string, options: string)
    requires ':' !in name
    ensures SplitItem(name + [':'] + options) == (name, options)
  {
    var item := name + [':'] + options;
    assert item[|name|] == ':';
    assert forall j :: 0 <= j < |name| ==> item[j] == name[j];
    var i := Find(item, ':').value;
    assert i == |name|;
    assert item[..i] == name && item[i + 1..] == options;
  }

  /** Whether `load_library` knows the item's module and that module's `init` accepts the item's options. */
  predicate ItemLoads(item: string, lookup: string -> Option<Funcs>)
  {
    var (name, options) := SplitItem(item);
    lookup(name).Some? && lookup(name).value.init(options).Some?
  }

  /** The filter an item that loads becomes: its module's callbacks and the state its `init` returned, with no frame yet. */
  function LoadedFilter(item: string, lookup: string -> Option<Funcs>): (r: Filter)
    requires ItemLoads(item, lookup)
    ensures r.funcs == lookup(SplitItem(item).0).value
    ensures Some(r.state) == r.funcs.init(SplitItem(item).1)
    ensures r.f.None? && r.configuredWith.None?
  {
    var (name, options) := SplitItem(item);
    var funcs := lookup(name).value;
    Filter(funcs, funcs.init(options).value, None, None)
  }

  /** The filters `init` appends for the items, in order; None as soon as one module is unknown or fails to initialise. */
  function Load(items: seq<string>, lookup: string -> Option<Funcs>): (r: Option<seq<Filter>>)
    ensures r.Some? <==> forall i :: 0 <= i < |items| ==> ItemLoads(items[i], lookup)
    ensures r.Some? ==> |r.value| == |items|
    ensures r.Some? ==> forall i :: 0 <= i < |items| ==> r.value[i] == LoadedFilter(items[i], lookup)
  {
    if items == [] then Some([])
    else if !ItemLoads(items[0], lookup) then None
    else match Load(items[1..], lookup)
      case None => None
      case Some(rest) =>
        assert forall i :: 1 <= i < |items| ==> items[i] == items[1..][i - 1];
        Some([LoadedFilter(items[0], lookup)] + rest)
  }

  /** One unknown module or one failed `init` anywhere in the configuration makes the whole load fail. */
  lemma OneFailureAbortsLoad(items: seq<string>, k: nat, lookup: string -> Option<Funcs>)
    requires k < |items| && !ItemLoads(items[k], lookup)
    ensures Load(items, lookup).None?
  {
  }

  // ---------------------------------------------------------------------
  // Descriptions threaded through the chain
  // ---------------------------------------------------------------------

  /** Whether the filter's `reconfigure` accepts the description. */
  predicate Accepts(x: Filter, d: VideoDesc)
  {
    x.funcs.reconfigure(x.state, d)
  }

  /** What the filter reports through `get_out_desc` after being reconfigured with `d`. */
  function Out(x: Filter, d: VideoDesc): OutInfo
  {
    x.funcs.outInfo(x.state, Some(d))
  }

  /** A filter is simple when it keeps the merged display mode and produces exactly one frame per input frame. */
  predicate Simple(o: OutInfo)
  {
    o.displayMode == Merged && o.outFrames == 1
  }

  /** The description each filter of the chain is reconfigured with: the input for the first, the previous filter's output for the others. */
  function Inputs(fs: seq<Filter>, d: VideoDesc): (r: seq<VideoDesc>)
    ensures |r| == |fs|
    ensures |fs| > 0 ==> r[0] == d
    ensures forall j :: 0 < j < |fs| ==> r[j] == Out(fs[j - 1], r[j - 1]).desc
    decreases |fs|
  {
    if fs == [] then []
    else
      var rest := Inputs(fs[1..], Out(fs[0], d).desc);
      assert forall j :: 0 <= j < |fs| - 1 ==> fs[1..][j] == fs[j + 1];
      [d] + rest
  }

  /** Every filter accepts the description it is given. */
  predicate ChainAccepts(fs: seq<Filter>, d: VideoDesc)
  {
    forall j :: 0 <= j < |fs| ==> Accepts(fs[j], Inputs(fs, d)[j])
  }

  /** Every filter is simple with the description it is given. */
  predicate ChainSimple(fs: seq<Filter>, d: VideoDesc)
  {
    forall j :: 0 <= j < |fs| ==> Simple(Out(fs[j], Inputs(fs, d)[j]))
  }

  /** The filters before position `j` all accept their input. */
  predicate AcceptedBefore(fs: seq<Filter>, d: VideoDesc, j: nat)
    requires j <= |fs|
  {
    forall k :: 0 <= k < j ==> Accepts(fs[k], Inputs(fs, d)[k])
  }

  /** The filters before position `j` all fetch a frame. */
  predicate FetchedBefore(fs: seq<Filter>, j: nat)
    requires j <= |fs|
  {
    forall k :: 0 <= k < j ==> fs[k].funcs.getf(fs[k].state).Some?
  }

  /** The whole chain after a reconfiguration in which every filter was reached. */
  function ConfiguredAll(fs: seq<Filter>, d: VideoDesc): (r: seq<Filter>)
    ensures |r| == |fs|
    ensures forall j :: 0 <= j < |fs| ==> r[j].configuredWith == Some(Inputs(fs, d)[j])
    ensures forall j :: 0 <= j < |fs| ==> r[j].funcs == fs[j].funcs && r[j].state == fs[j].state && r[j].f == fs[j].f
  {
    var ins := Inputs(fs, d);
    seq(|fs|, j requires 0 <= j < |fs| => fs[j].(configuredWith := Some(ins[j])))
  }

  /** What `vo_postprocess_get_out_desc` reports for a non-empty chain: the last filter's answer. */
  function ChainOut(fs: seq<Filter>): (r: OutInfo)
    requires |fs| > 0
    ensures r == fs[|fs| - 1].funcs.outInfo(fs[|fs| - 1].state, fs[|fs| - 1].configuredWith)
  {
    var last := fs[|fs| - 1];
    last.funcs.outInfo(last.state, last.configuredWith)
  }

  /**
   * After a reconfiguration that reached every filter, the chain's output
   * is the last filter's output for the description threaded through all
   * the earlier ones; when that reconfiguration succeeded on a chain of
   * two or more filters, the output is merged and one frame per frame.
   */
  lemma ReconfiguredChainOut(fs: seq<Filter>, d: VideoDesc)
    requires |fs| > 0
    ensures ChainOut(ConfiguredAll(fs, d)) == Out(fs[|fs| - 1], Inputs(fs, d)[|fs| - 1])
    ensures |fs| > 1 && ChainSimple(fs, d) ==> Simple(ChainOut(ConfiguredAll(fs, d)))
  {
    var n := |fs| - 1;
    var c := ConfiguredAll(fs, d);
    assert c[n] == fs[n].(configuredWith := Some(Inputs(fs, d)[n]));
  }

  // ---------------------------------------------------------------------
  // Processing
  // ---------------------------------------------------------------------

  /** One call of a filter's `vo_postprocess` callback: the filter's state, the input frame, the output frame and the pitch. */
  datatype Call = Call(state: nat, src: Option<Frame>, dst: Frame, pitch: int)

  /** Frames filled by `getf` for every filter after the first, which is where each filter but the last writes. */
  predicate FramesReady(fs: seq<Filter>)
  {
    forall j :: 0 < j < |fs| ==> fs[j].f.Some?
  }

  /** Where filter `k` writes: the next filter's frame, or `out` for the last filter. */
  function Destination(fs: seq<Filter>, out: Frame, k: nat): (r: Frame)
    requires k < |fs| && FramesReady(fs)
    ensures k + 1 == |fs| ==> r == out
    ensures k + 1 < |fs| ==> Some(r) == fs[k + 1].f
  {
    if k + 1 < |fs| then fs[k + 1].f.value else out
  }

  /** The call filter `k` receives when processing reaches it: its input is the previous filter's destination (or `in` for the first). */
  function CallAt(fs: seq<Filter>, input: Option<Frame>, out: Frame, reqPitch: int, lineSize: (U32, Codec) -> int, k: nat): (c: Call)
    requires k < |fs| && FramesReady(fs)
    ensures c.state == fs[k].state && c.dst == Destination(fs, out, k)
    ensures k == 0 ==> c.src == input
    ensures k > 0 ==> c.src == Some(Destination(fs, out, k - 1))
    ensures k + 1 == |fs| ==> c.pitch == reqPitch
    ensures k + 1 < |fs| ==> c.pitch == lineSize(c.dst.width, c.dst.colorSpec)
  {
    var dst := Destination(fs, out, k);
    Call(fs[k].state,
         if k == 0 then input else Some(Destination(fs, out, k - 1)),
         dst,
         if k + 1 == |fs| then reqPitch else lineSize(dst.width, dst.colorSpec))
  }

  /** Whether the filter's callback succeeds on the call. */
  predicate Succeeds(x: Filter, c: Call)
  {
    x.funcs.process(c.state, c.src, c.dst, c.pitch)
  }

  // ---------------------------------------------------------------------
  // Properties
  // ---------------------------------------------------------------------

  /**
   * The filter `vo_postprocess_get_property` asks, by position in a chain
   * of `n`: the last one with a single filter or for the tiling-mode
   * property, the first one for codecs in a longer chain, none otherwise.
   */
  function QueriedPosition(n: nat, p: Property): (r: Option<nat>)
    requires n == 0 ==> p.OtherProperty?
    ensures r.Some? ==> r.value < n
    ensures r.None? <==> n != 1 && p.OtherProperty?
    ensures r.Some? && r.value == 0 && n > 1 ==> p == Codecs
    ensures r.Some? && r.value > 0 ==> r.value == n - 1
  {
    if n == 1 || p == DoesChangeTilingMode then Some(n - 1)
    else if p == Codecs then Some(0)
    else None
  }

  /**
   * The argument handed to the queried filter's `get_property`. As
   * written the chain passes its wrapper record; the corrected call passes
   * the filter's own state.
   */
  function PropertyArgument(fs: seq<Filter>, position: nat, asWritten: bool): (r: PropertyArg)
    requires position < |fs|
    ensures asWritten ==> r.WrapperOf? && r != FilterState(fs[position].state)
    ensures !asWritten ==> r == FilterState(fs[position].state)
  {
    if asWritten then WrapperOf(position) else FilterState(fs[position].state)
  }

  // ---------------------------------------------------------------------
  // The chain
  // ---------------------------------------------------------------------

  /** `struct vo_postprocess_state`: the list of filters. A null reference stands for a NULL state. */
  class Chain {
    var filters: seq<Filter>

    constructor ()
      ensures filters == []
    {
      filters := [];
    }

    /**
     * `init`: the `strtok_r` loop over the items of the configuration,
     * appending one filter per item and giving up at the first unknown
     * module or failed `init`.
     */
    method LoadItems(items: seq<string>, lookup: string -> Option<Funcs>) returns (ok: bool)
      modifies this
      ensures ok <==> Load(items, lookup).Some?
      ensures ok ==> filters == old(filters) + Load(items, lookup).value
    {
      var i := 0;
      while i < |items|
        invariant i <= |items|
        invariant forall k :: 0 <= k < i ==> ItemLoads(items[k], lookup)
        invariant |filters| == |old(filters)| + i
        invariant filters[..|old(filters)|] == old(filters)
        invariant forall k :: 0 <= k < i ==> filters[|old(filters)| + k] == LoadedFilter(items[k], lookup)
      {
        var (name, options) := SplitItem(items[i]);
        var funcs := lookup(name);
        if funcs.None? {
          return false;
        }
        var state := funcs.value.init(options);
        if state.None? {
          return false;
        }
        filters := filters + [Filter(funcs.value, state.value, None, None)];
        i := i + 1;
      }
      ok := true;
      var loaded := Load(items, lookup).value;
      assert filters == old(filters) + loaded by {
        assert forall k :: 0 <= k < |loaded| ==> filters[|old(filters)| + k] == loaded[k];
      }
    }
  }

  /**
   * `vo_postprocess_init`: a missing configuration, "help" and "fullhelp"
   * give NULL, and so does a configuration one of whose items does not
   * load; otherwise the chain holds one filter per item.
   */
  method Init(config: Option<string>, lookup: string -> Option<Funcs>) returns (s: Chain?)
    ensures config.None? || config.value == "help" || config.value == "fullhelp" ==> s == null
    ensures config.Some? && config.value != "help" && config.value != "fullhelp" ==>
      (s == null <==> Load(Tokens(config.value, ','), lookup).None?)
    ensures s != null ==> fresh(s) && s.filters == Load(Tokens(config.value, ','), lookup).value
  {
    if config.None? || config.value == "help" || config.value == "fullhelp" {
      return null;
    }
    var chain := new Chain();
    var ok := chain.LoadItems(Tokens(config.value, ','), lookup);
    if !ok {
      return null;
    }
    return chain;
  }

  /**
   * `vo_postprocess_reconfigure`: each filter in turn is reconfigured with
   * the previous filter's output description, stopping with FALSE at the
   * first that refuses; a chain of several filters is refused as a whole
   * when one of them is not simple.
   */
  method Reconfigure(s: Chain?, desc: VideoDesc) returns (r: bool)
    modifies s
    ensures s == null ==> !r
    ensures s != null ==> (r <==> ChainAccepts(old(s.filters), desc) &&
                                  (|old(s.filters)| <= 1 || ChainSimple(old(s.filters), desc)))
    ensures s != null ==> |s.filters| == |old(s.filters)|
    ensures s != null ==> forall j :: 0 <= j < |s.filters| ==>
      s.filters[j] == if AcceptedBefore(old(s.filters), desc, j)
                      then old(s.filters)[j].(configuredWith := Some(Inputs(old(s.filters), desc)[j]))
                      else old(s.filters)[j]
    ensures s != null && ChainAccepts(old(s.filters), desc) ==> s.filters == ConfiguredAll(old(s.filters), desc)
  {
    if s == null {
      return false;
    }
    var accepted, complex := ConfigureFilters(s, desc);
    r := accepted && !(complex && |s.filters| > 1);
  }

  /**
   * The loop of `vo_postprocess_reconfigure`: it reconfigures the filters
   * in turn until one refuses, and reports whether all accepted and
   * whether one of them is not simple.
   */
  method ConfigureFilters(s: Chain, desc: VideoDesc) returns (accepted: bool, complex: bool)
    modifies s
    ensures accepted <==> ChainAccepts(old(s.filters), desc)
    ensures accepted ==> (complex <==> !ChainSimple(old(s.filters), desc))
    ensures |s.filters| == |old(s.filters)|
    ensures forall j :: 0 <= j < |s.filters| ==>
      s.filters[j] == if AcceptedBefore(old(s.filters), desc, j)
                      then old(s.filters)[j].(configuredWith := Some(Inputs(old(s.filters), desc)[j]))
                      else old(s.filters)[j]
    ensures accepted ==> s.filters == ConfiguredAll(old(s.filters), desc)
  {
    var fs := s.filters;
    ghost var ins := Inputs(fs, desc);
    var d := desc;
    complex := false;
    var i := 0;
    while i < |fs|
      invariant i <= |fs| && |s.filters| == |fs|
      invariant i < |fs| ==> d == ins[i]
      invariant AcceptedBefore(fs, desc, i)
      invariant complex <==> exists k :: 0 <= k < i && !Simple(Out(fs[k], ins[k]))
      invariant forall j :: 0 <= j < |fs| ==>
        s.filters[j] == if j < i then fs[j].(configuredWith := Some(ins[j])) else fs[j]
    {
      s.filters := s.filters[i := fs[i].(configuredWith := Some(d))];
      if !Accepts(fs[i], d) {
        assert !ChainAccepts(fs, desc);
        assert forall j :: i < j < |fs| ==> !AcceptedBefore(fs, desc, j);
        return false, complex;
      }
      var info := Out(fs[i], d);
      if !Simple(info) {
        complex := true;
      }
      d := info.desc;
      i := i + 1;
    }
    assert s.filters == ConfiguredAll(fs, desc);
    accepted := true;
  }

  /**
   * `vo_postprocess_getf`: every filter in turn fetches its frame, stopping
   * with NULL at the first filter that has none; the result is the first
   * filter's frame.
   */
  method Getf(s: Chain?) returns (r: Option<Frame>)
    modifies s
    ensures s == null ==> r.None?
    ensures s != null ==> (r.Some? <==> (|old(s.filters)| > 0 && FetchedBefore(old(s.filters), |old(s.filters)|)))
    ensures s != null && r.Some? ==> r == old(s.filters)[0].funcs.getf(old(s.filters)[0].state)
    ensures s != null ==> |s.filters| == |old(s.filters)|
    ensures s != null ==> forall j :: 0 <= j < |s.filters| ==>
      s.filters[j] == if FetchedBefore(old(s.filters), j)
                      then old(s.filters)[j].(f := old(s.filters)[j].funcs.getf(old(s.filters)[j].state))
                      else old(s.filters)[j]
  {
    if s == null {
      return None;
    }
    var fs := s.filters;
    r := None;
    var i := 0;
    while i < |fs|
      invariant i <= |fs| && |s.filters| == |fs|
      invariant FetchedBefore(fs, i)
      invariant i == 0 ==> r.None?
      invariant i > 0 ==> r == fs[0].funcs.getf(fs[0].state)
      invariant forall j :: 0 <= j < |fs| ==>
        s.filters[j] == if j < i then fs[j].(f := fs[j].funcs.getf(fs[j].state)) else fs[j]
    {
      var frame := fs[i].funcs.getf(fs[i].state);
      s.filters := s.filters[i := fs[i].(f := frame)];
      if frame.None? {
        assert forall j :: i < j <= |fs| ==> !FetchedBefore(fs, j);
        return None;
      }
      if r.None? {
        r := frame;
      }
      i := i + 1;
    }
  }

  /**
   * `vo_postprocess`: filter k reads the previous filter's output (the
   * caller's `in` for the first) and writes into the next filter's frame
   * with that frame's line size, the last filter writing into `out` with
   * the requested pitch; processing stops at the first failure. `calls`
   * lists the callbacks made, in order. An empty chain dereferences NULL
   * in the assertion on the first filter's frame.
   */
  method Process(s: Chain?, input: Option<Frame>, out: Frame, reqPitch: int, lineSize: (U32, Codec) -> int)
    returns (r: Answer<bool>, calls: seq<Call>)
    requires s != null ==> FramesReady(s.filters)
    requires s != null && |s.filters| > 0 ==> input.None? || input == s.filters[0].f
    ensures s == null ==> r == Answered(false) && calls == []
    ensures s != null && |s.filters| == 0 ==> r == NullDereference && calls == []
    ensures s != null && |s.filters| > 0 ==> r.Answered? && 0 < |calls| <= |s.filters|
    ensures s != null ==> forall k :: 0 <= k < |calls| ==>
      calls[k] == CallAt(s.filters, input, out, reqPitch, lineSize, k)
    ensures s != null ==> forall k :: 0 <= k < |calls| - 1 ==> Succeeds(s.filters[k], calls[k])
    ensures s != null && |s.filters| > 0 ==>
      (r.value <==> |calls| == |s.filters| && Succeeds(s.filters[|calls| - 1], calls[|calls| - 1]))
  {
    if s == null {
      return Answered(false), [];
    }
    if |s.filters| == 0 {
      return NullDereference, [];
    }
    var fs := s.filters;
    var src := input;
    calls := [];
    var i := 0;
    while i < |fs|
      invariant i <= |fs| && |calls| == i
      invariant forall k :: 0 <= k < i ==> calls[k] == CallAt(fs, input, out, reqPitch, lineSize, k)
      invariant forall k :: 0 <= k < i ==> Succeeds(fs[k], calls[k])
      invariant i == 0 ==> src == input
      invariant i > 0 ==> src == Some(Destination(fs, out, i - 1))
    {
      var next := out;
      if i + 1 < |fs| {
        next := fs[i + 1].f.value;
      }
      var pitch := lineSize(next.width, next.colorSpec);
      if i + 1 == |fs| {
        pitch := reqPitch;
      }
      var c := Call(fs[i].state, src, next, pitch);
      calls := calls + [c];
      if !fs[i].funcs.process(c.state, c.src, c.dst, c.pitch) {
        return Answered(false), calls;
      }
      src := Some(next);
      i := i + 1;
    }
    r := Answered(true);
  }

  /**
   * `vo_postprocess_get_out_desc`: nothing changes for a NULL state; the
   * last filter answers; an empty chain dereferences NULL.
   */
  method GetOutDesc(s: Chain?, current: OutInfo) returns (r: Answer<OutInfo>)
    ensures s == null ==> r == Answered(current)
    ensures s != null && |s.filters| == 0 ==> r == NullDereference
    ensures s != null && |s.filters| > 0 ==> r == Answered(ChainOut(s.filters))
  {
    if s == null {
      return Answered(current);
    }
    if |s.filters| == 0 {
      return NullDereference;
    }
    r := Answered(ChainOut(s.filters));
  }

  /**
   * `vo_postprocess_get_property`: false for a NULL state or when no filter
   * is queried; otherwise the answer of the queried filter's callback, given
   * the argument that `asWritten` selects. An empty chain asked for the
   * tiling mode or the codecs dereferences NULL.
   */
  function GetProperty(s: Chain?, p: Property, asWritten: bool): (r: Answer<bool>)
    reads s
    ensures s == null ==> r == Answered(false)
    ensures s != null && |s.filters| == 0 ==> (r == NullDereference <==> !p.OtherProperty?)
    ensures s != null && |s.filters| == 0 && p.OtherProperty? ==> r == Answered(false)
    ensures s != null && |s.filters| > 0 && QueriedPosition(|s.filters|, p).None? ==> r == Answered(false)
    ensures s != null && |s.filters| > 0 && QueriedPosition(|s.filters|, p).Some? ==>
      var k := QueriedPosition(|s.filters|, p).value;
      r == Answered(s.filters[k].funcs.getProperty(PropertyArgument(s.filters, k, asWritten), p))
  {
    if s == null then Answered(false)
    else if |s.filters| == 0 && !p.OtherProperty? then NullDereference
    else match QueriedPosition(|s.filters|, p)
      case None => Answered(false)
      case Some(k) => Answered(s.filters[k].funcs.getProperty(PropertyArgument(s.filters, k, asWritten), p))
  }

  /**
   * The chains that read a filter through NULL: `vo_postprocess_init`
   * returns a chain with no filters exactly for a configuration made only
   * of `,` (the empty string included), whatever modules exist.
   */
  lemma EmptyChainConfigurations(config: string, lookup: string -> Option<Funcs>)
    ensures Load(Tokens(config, ','), lookup) == Some([]) <==> forall i :: 0 <= i < |config| ==> config[i] == ','
  {
    NoTokensOnlyDelimiters(config, ',');
  }
}
