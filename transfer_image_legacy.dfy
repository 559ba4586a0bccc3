/**
 * The older `transfer_image` / `image` pair: the image stores its own
 * description and a `fence_set` flag, the `image` handle clears the
 * callback when it is made, and `preprocess` runs the callback without
 * clearing it.
 */
module TransferImageLegacy {
  import opened Wrappers
  import opened VkTypes

  const NO_ID: U32 := UINT32_MAX

  /** `image_description::operator==`: width, height and format. */
  predicate SameDescription(a: ImageDescription, b: ImageDescription)
  {
    a.size.width == b.size.width && a.size.height == b.size.height && a.format == b.format
  }

  lemma SameDescriptionIsEquality(a: ImageDescription, b: ImageDescription)
    ensures SameDescription(a, b) <==> a == b
  {
  }

  class LegacyTransferImage {
    var id: U32
    var description: ImageDescription
    var memoryContents: seq<Byte>
    var rowPitch: nat
    var preprocessFun: Option<seq<Byte> -> seq<Byte>>
    /** True once a submission that uses the image has been made: its fence must be waited for. */
    var fenceSet: bool

    /** `transfer_image(device, id)`: a fresh image has never been submitted. */
    constructor (newId: U32)
      ensures id == newId && !fenceSet && preprocessFun.None?
      ensures description == ImageDescription(Extent2D(0, 0), FORMAT_UNDEFINED)
    {
      id := newId;
      description := ImageDescription(Extent2D(0, 0), FORMAT_UNDEFINED);
      memoryContents := [];
      rowPitch := 0;
      preprocessFun := None;
      fenceSet := false;
    }

    /** `get_description`. */
    function GetDescription(): (d: ImageDescription)
      reads this
      ensures d == description
    {
      description
    }
  }

  /** `vulkan_display::image`: a pointer to a transfer image. */
  datatype Image = Image(target: LegacyTransferImage)

  /** The `image` constructor: asserts an id and clears any callback left on the image. */
  method MakeImage(t: LegacyTransferImage) returns (img: Image)
    requires t.id != NO_ID
    modifies t`preprocessFun
    ensures img.target == t && t.preprocessFun.None?
  {
    img := Image(t);
    t.preprocessFun := None;
  }

  function GetId(img: Image): (id: U32)
    reads img.target
    ensures id == img.target.id
  {
    img.target.id
  }

  function GetImageDescription(img: Image): (d: ImageDescription)
    reads img.target
    ensures d == img.target.description
  {
    img.target.description
  }

  function GetSize(img: Image): (size: Extent2D)
    reads img.target
    ensures size == img.target.description.size
  {
    img.target.description.size
  }

  function GetRowPitch(img: Image): (pitch: nat)
    reads img.target
    ensures pitch == img.target.rowPitch
  {
    img.target.rowPitch
  }

  method SetProcessFunction(img: Image, f: Option<seq<Byte> -> seq<Byte>>)
    modifies img.target`preprocessFun
    ensures img.target.preprocessFun == f
  {
    img.target.preprocessFun := f;
  }

  /** `image::preprocess`: runs the callback if set, and keeps it. */
  method Preprocess(img: Image)
    modifies img.target`memoryContents
    ensures old(img.target.preprocessFun).Some? ==>
      img.target.memoryContents == img.target.preprocessFun.value(old(img.target.memoryContents))
    ensures old(img.target.preprocessFun).None? ==> img.target.memoryContents == old(img.target.memoryContents)
  {
    if img.target.preprocessFun.Some? {
      img.target.memoryContents := img.target.preprocessFun.value(img.target.memoryContents);
    }
  }

  /** Two `preprocess` calls run the callback twice, unlike the newer engine. */
  method PreprocessTwice(img: Image)
    modifies img.target`memoryContents
    ensures old(img.target.preprocessFun).Some? ==>
      var f := img.target.preprocessFun.value;
      img.target.memoryContents == f(f(old(img.target.memoryContents)))
  {
    Preprocess(img);
    Preprocess(img);
  }
}
