/** The raw image object owned by a pair. Its own source is not part of this model; the object
    is a heap cell holding one frame value, with only the operations the pair calls. */
module ImagesRaw {
  import opened Frames

  class ImagesRaw {
    var frame: RawFrame

    /** `ImagesRaw {}`: default metadata and no pixels. */
    constructor ()
      ensures frame == EmptyFrame
    {
      frame := EmptyFrame;
    }

    /** `ImagesRaw { a }`: a copy of the value of `a`, metadata and pixels. */
    constructor Copy(a: RawFrame)
      ensures frame == a
    {
      frame := a;
    }

    /** `getImgBufferSize()`: the number of bytes in the pixel buffer. */
    function BufferSize(): nat
      reads this
    {
      |frame.buffer|
    }

    /** `setImgNumber(n)`: changes the image number and nothing else. */
    method SetImgNumber(n: int)
      modifies this
      ensures frame == old(frame).(info := old(frame).info.(numImages := n))
    {
      frame := frame.(info := frame.info.(numImages := n));
    }
  }
}
