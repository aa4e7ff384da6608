/** The colour image: frame metadata plus a heap-allocated OpenCV matrix. The matrix library is
    foreign, so a matrix is an object holding its pixel bytes, and the colour conversion and the
    undistortion are functions passed in. */
module ImagesCV {
  import opened Frames
  import opened Memory
  import opened ImagesRaw

  /** An OpenCV matrix. Pixels are never written in place, so they are constant. */
  class Mat {
    const pixels: Bytes

    constructor (p: Bytes)
      ensures pixels == p
    {
      pixels := p;
    }
  }

  /** Demosaicing of a Bayer view of `rows` x `cols` bytes at the start of a buffer. */
  type Debayer = (nat, nat, Bytes) -> Bytes

  /** Undistortion of an image by two calibration maps. */
  type Remapping = (Bytes, Bytes, Bytes) -> Bytes

  class ImagesCV {
    var info: FrameInfo
    var image: Mat?

    ghost predicate Valid(heap: Heap)
      reads this, heap
    {
      image != null ==> image in heap.live
    }

    /** `ImagesCV()`: default metadata and a new empty matrix. */
    constructor (heap: Heap)
      modifies heap
      ensures info == DefaultInfo && fresh(image) && image.pixels == []
      ensures heap.live == old(heap.live) + {image} && Valid(heap)
    {
      info := DefaultInfo;
      var m := new Mat([]);
      heap.Adopt(m);
      image := m;
    }

    /** `ImagesCV(ImagesRaw&)`: converts the raw buffer to colour and copies every metadata field.
        The Bayer view is built while height and width still hold the defaults of a fresh record,
        so it has the default size, not the size of the source frame. */
    constructor FromRaw(img: ImagesRaw, debayer: Debayer, heap: Heap)
      modifies heap
      ensures info == img.frame.info
      ensures fresh(image) && image.pixels == debayer(DefaultHeight, DefaultWidth, img.frame.buffer)
      ensures heap.live == old(heap.live) + {image} && Valid(heap)
    {
      info := DefaultInfo;
      new;
      var viewRows, viewCols := info.height, info.width;
      var m := new Mat(debayer(viewRows, viewCols, img.frame.buffer));
      heap.Adopt(m);
      image := m;
      info := img.frame.info;
    }

    /** Copy constructor: a new matrix with the source's pixels, and the source's metadata. It
        dereferences the source's matrix pointer, so that pointer must not be null. */
    constructor Copy(img: ImagesCV, heap: Heap)
      requires img.image != null
      modifies heap
      ensures info == img.info
      ensures fresh(image) && image.pixels == img.image.pixels
      ensures heap.live == old(heap.live) + {image} && Valid(heap)
    {
      var m := new Mat(img.image.pixels);
      heap.Adopt(m);
      image := m;
      info := img.info;
    }

    /** Move constructor: takes the source's matrix pointer, nulls it in the source, and copies the
        metadata, which the source keeps. */
    constructor Move(img: ImagesCV)
      modifies img
      ensures image == old(img.image) && info == old(img.info)
      ensures img.image == null && img.info == old(img.info)
    {
      image := img.image;
      info := img.info;
      new;
      img.image := null;
    }

    /** `remap(map1, map2)`: allocates the undistorted matrix, installs it, then releases the old
        one. The metadata does not change. */
    method Remap(map1: Mat, map2: Mat, remap: Remapping, heap: Heap)
      requires image != null && Valid(heap)
      modifies this`image, heap
      ensures fresh(image) && image.pixels == remap(old(image.pixels), map1.pixels, map2.pixels)
      ensures heap.live == old(heap.live) - {old(image)} + {image}
      ensures info == old(info) && Valid(heap)
    {
      var undistorted := new Mat(remap(image.pixels, map1.pixels, map2.pixels));
      heap.Adopt(undistorted);
      var oldImage := image;
      image := undistorted;
      heap.Delete(oldImage);
    }

    /** Destructor: releases exactly the matrix currently owned (nothing after a move). */
    method Destroy(heap: Heap)
      requires Valid(heap)
      modifies heap
      ensures image == null ==> heap.live == old(heap.live)
      ensures image != null ==> heap.live == old(heap.live) - {image}
    {
      heap.Delete(image);
    }
  }
}
