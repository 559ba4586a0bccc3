/**
 * UltraGrid's video vocabulary as the capture, display and
 * post-processing modules exchange it: pixel formats (`codec_t`),
 * interlacing, frame rates, the `video_desc` of a stream and the
 * `video_frame` a module fills.
 */
module Video {
  import opened Wrappers

  /** The `codec_t` values these modules name; every other one is `OtherCodec`. */
  datatype Codec = CodecNone | UYVY | RGB | RGBA | BGR | YUYV | V210 | MJPG | H264 | JPEG | OtherCodec(id: nat)

  datatype Interlacing = Progressive | UpperFieldFirst | LowerFieldFirst | InterlacedMerged | SegmentedFrame

  /** A frame rate, kept as an exact fraction where the source uses a `double`. */
  datatype Fps = Fps(num: int, den: nat)
  {
    predicate Positive() { num > 0 && den > 0 }
    /** The rate halved: `fps /= 2`. */
    function Half(): Fps { Fps(num, 2 * den) }
  }

  const NO_FPS: Fps := Fps(0, 1)

  /** `struct video_desc`. The C fields `width` and `height` are `unsigned int`. */
  datatype VideoDesc = VideoDesc(width: U32, height: U32, colorSpec: Codec, fps: Fps, interlacing: Interlacing, tileCount: nat)

  /** `(struct video_desc) { 0 }`: the value the parsers return on failure. */
  const ZERO_DESC: VideoDesc := VideoDesc(0, 0, CodecNone, NO_FPS, Progressive, 0)

  /** `struct tile`: its size, and the length and address of its data. */
  datatype Tile = Tile(width: U32, height: U32, dataLen: nat, data: nat)

  /** The conversion of a signed `int` to `unsigned int`: modulo 2^32. */
  function ToU32(x: int): (r: U32)
    ensures 0 <= x <= UINT32_MAX ==> r == x
  {
    x % UINT32_MODULUS
  }

  /** `struct video_frame`, which the display and capture modules fill in place. */
  class VideoFrame {
    var colorSpec: Codec
    var fps: Fps
    var interlacing: Interlacing
    var tileCount: nat
    var tiles: seq<Tile>

    constructor (tileSlots: nat)
      ensures colorSpec == CodecNone && fps == NO_FPS && interlacing == Progressive
      ensures tileCount == 0 && |tiles| == tileSlots
    {
      colorSpec := CodecNone;
      fps := NO_FPS;
      interlacing := Progressive;
      tileCount := 0;
      tiles := seq(tileSlots, _ => Tile(0, 0, 0, 0));
    }

    /** The frame's description, as `video_desc_from_frame` reads it from the first tile. */
    function Description(): (d: VideoDesc)
      reads this
      requires tiles != []
      ensures d.colorSpec == colorSpec && d.fps == fps && d.tileCount == tileCount
      ensures d.width == tiles[0].width && d.height == tiles[0].height
    {
      VideoDesc(tiles[0].width, tiles[0].height, colorSpec, fps, interlacing, tileCount)
    }

    /**
     * `update_description`: the frame takes the codec, rate, interlacing
     * and tile count of `desc`, and each of its first `desc.tileCount`
     * tiles takes the width and height; tile data and later tiles stay.
     */
    method UpdateDescription(desc: VideoDesc)
      requires desc.tileCount <= |tiles|
      modifies this
      ensures colorSpec == desc.colorSpec && fps == desc.fps && interlacing == desc.interlacing
      ensures tileCount == desc.tileCount && |tiles| == |old(tiles)|
      ensures forall i :: 0 <= i < desc.tileCount ==>
        tiles[i] == old(tiles[i]).(width := desc.width, height := desc.height)
      ensures forall i :: desc.tileCount <= i < |tiles| ==> tiles[i] == old(tiles[i])
      ensures desc.tileCount > 0 ==> Description() == desc
    {
      colorSpec := desc.colorSpec;
      fps := desc.fps;
      interlacing := desc.interlacing;
      tileCount := desc.tileCount;
      var updated := tiles;
      var i := 0;
      while i < desc.tileCount
        invariant i <= desc.tileCount && |updated| == |tiles|
        invariant forall j :: 0 <= j < i ==> updated[j] == tiles[j].(width := desc.width, height := desc.height)
        invariant forall j :: i <= j < |updated| ==> updated[j] == tiles[j]
      {
        updated := updated[i := updated[i].(width := desc.width, height := desc.height)];
        i := i + 1;
      }
      tiles := updated;
    }
  }
}
