/** Value-level view of the frames that flow from the acquirer to the sinks: the metadata an
    `ImagesRaw` carries, its pixel buffer, and a pair of two optional frames (an absent frame is a
    null pointer of the pair). */
module Frames {
  import opened Wrappers

  type Bytes = seq<bv8>

  /** Default image size of a fresh image record. */
  const DefaultHeight: nat := 3008
  const DefaultWidth: nat := 3008

  /** Metadata of a raw frame. Floating-point values are carried as reals and never computed on. */
  datatype FrameInfo = FrameInfo(
    height: nat,
    width: nat,
    cameraIdx: nat,
    captureCPUTime: string,
    captureCamTime: string,
    exposureTime: real,
    gain: int,
    balanceR: real,
    balanceG: real,
    balanceB: real,
    autoExpTime: int,
    autoGain: int,
    numImages: int,
    serialNum: string)

  /** The metadata of a default-constructed image. */
  const DefaultInfo: FrameInfo :=
    FrameInfo(DefaultHeight, DefaultWidth, 0, "", "", 0.0, 0, 0.0, 0.0, 0.0, 0, 0, 0, "")

  datatype RawFrame = RawFrame(info: FrameInfo, buffer: Bytes)

  /** A default-constructed `ImagesRaw`: default metadata and an empty pixel buffer. */
  const EmptyFrame: RawFrame := RawFrame(DefaultInfo, [])

  /** The two slots of a pair; None is a null slot pointer. */
  datatype Pair = Pair(slot0: Option<RawFrame>, slot1: Option<RawFrame>)

  /** What a pair holds after it has been moved from: both slot pointers are null, so such a
      pair cannot be copied (see `CopyDefined`). */
  const MovedFrom: Pair := Pair(None, None)

  /** The pair copy constructor dereferences both slot pointers, so copying is defined only
      when both are non-null. */
  predicate CopyDefined(p: Pair) {
    p.slot0.Some? && p.slot1.Some?
  }

  /** The second image counts as present when its buffer is non-empty; a zero-size second buffer
      means "no secondary image" to saving and numbering. */
  predicate HasSecond(p: Pair)
    requires p.slot1.Some?
  {
    |p.slot1.value.buffer| != 0
  }
}
