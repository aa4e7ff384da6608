/** The pair of raw images that travels from the acquirer to the sinks. It owns two heap
    `ImagesRaw` objects through two pointers; copying allocates two new objects, moving hands the
    pointers over and nulls them in the source, and assignment releases what the pair owned
    before. */
module PairImagesRaw {
  import opened Wrappers
  import opened Frames
  import opened Memory
  import opened ImagesRaw

  /** One `saveData(path)` call on a slot's image. */
  datatype Saved = Saved(path: string, frame: RawFrame)

  class PairImages {
    var img0: ImagesRaw?
    var img1: ImagesRaw?

    /** The objects this pair will release. */
    ghost function Owned(): set<object>
      reads this
    {
      (if img0 == null then {} else {img0}) + (if img1 == null then {} else {img1})
    }

    /** Both owned images are live, and no image is owned through both slots. */
    ghost predicate Valid(heap: Heap)
      reads this, heap
    {
      Owned() <= heap.live && (img0 != null && img1 != null ==> img0 != img1)
    }

    /** The pair's value: the frame behind each slot, None for a null slot. */
    function Value(): Pair
      reads this, img0, img1
    {
      Pair(if img0 == null then None else Some(img0.frame),
           if img1 == null then None else Some(img1.frame))
    }

    /** `PairImages()`: two new default images. */
    constructor (heap: Heap)
      modifies heap
      ensures Valid(heap) && fresh(img0) && fresh(img1)
      ensures Value() == Pair(Some(EmptyFrame), Some(EmptyFrame))
      ensures heap.live == old(heap.live) + Owned()
    {
      var a := new ImagesRaw();
      heap.Adopt(a);
      var b := new ImagesRaw();
      heap.Adopt(b);
      img0, img1 := a, b;
    }

    /** `PairImages(a, b)`, in both its `const&` and its `const&&` form: a `const` rvalue cannot be
        moved from, so both forms copy `a` and `b` into two new images. */
    constructor OfPair(a: RawFrame, b: RawFrame, heap: Heap)
      modifies heap
      ensures Valid(heap) && fresh(img0) && fresh(img1)
      ensures Value() == Pair(Some(a), Some(b))
      ensures heap.live == old(heap.live) + Owned()
    {
      var c0 := new ImagesRaw.Copy(a);
      heap.Adopt(c0);
      var c1 := new ImagesRaw.Copy(b);
      heap.Adopt(c1);
      img0, img1 := c0, c1;
    }

    /** `PairImages(a)`, both forms: a copy of `a` and an empty second image, which saving and
        numbering then treat as absent. */
    constructor OfOne(a: RawFrame, heap: Heap)
      modifies heap
      ensures Valid(heap) && fresh(img0) && fresh(img1)
      ensures Value() == Pair(Some(a), Some(EmptyFrame))
      ensures !HasSecond(Value())
      ensures heap.live == old(heap.live) + Owned()
    {
      var c0 := new ImagesRaw.Copy(a);
      heap.Adopt(c0);
      var c1 := new ImagesRaw();
      heap.Adopt(c1);
      img0, img1 := c0, c1;
    }

    /** Copy constructor: two new images equal to the source's. It dereferences both source
        pointers, so a moved-from source is excluded. */
    constructor Copy(a: PairImages, heap: Heap)
      requires CopyDefined(a.Value())
      modifies heap
      ensures Valid(heap) && fresh(img0) && fresh(img1)
      ensures Value() == a.Value()
      ensures heap.live == old(heap.live) + Owned()
    {
      var c0 := new ImagesRaw.Copy(a.img0.frame);
      heap.Adopt(c0);
      var c1 := new ImagesRaw.Copy(a.img1.frame);
      heap.Adopt(c1);
      img0, img1 := c0, c1;
    }

    /** Move constructor: takes the source's two pointers and leaves the source with null slots. */
    constructor Move(a: PairImages)
      modifies a
      ensures img0 == old(a.img0) && img1 == old(a.img1)
      ensures Value() == old(a.Value())
      ensures a.Value() == MovedFrom && a.Owned() == {}
    {
      img0, img1 := a.img0, a.img1;
      new;
      a.img0, a.img1 := null, null;
    }

    /** `savePair(path)`: always saves the first image, the second only when its buffer is
        non-empty. The record of calls stands for the files written. */
    method SavePair(path: string) returns (saved: seq<Saved>)
      requires CopyDefined(Value())
      ensures |saved| == if HasSecond(Value()) then 2 else 1
      ensures saved[0] == Saved(path, img0.frame)
      ensures HasSecond(Value()) ==> saved[1] == Saved(path, img1.frame)
    {
      saved := [Saved(path, img0.frame)];
      if img1.BufferSize() != 0 {
        saved := saved + [Saved(path, img1.frame)];
      }
    }

    /** `setImgNumber(n)`: numbers the first image always and the second only when its buffer is
        non-empty; no other field of either image changes. */
    method SetImgNumber(n: int)
      requires CopyDefined(Value()) && img0 != img1
      modifies img0, img1
      ensures img0.frame == old(img0.frame).(info := old(img0.frame).info.(numImages := n))
      ensures img1.frame ==
        if |old(img1.frame).buffer| != 0 then old(img1.frame).(info := old(img1.frame).info.(numImages := n))
        else old(img1.frame)
    {
      img0.SetImgNumber(n);
      if img1.BufferSize() != 0 {
        img1.SetImgNumber(n);
      }
    }

    /** Copy assignment. Unless it is a self-assignment, it releases both images owned so far and
        then owns two new copies of the source's images; the source is left as it was. The source
        must not share an image with this pair, or the copy would read a released image. */
    method Assign(a: PairImages, heap: Heap)
      requires Valid(heap) && a.Valid(heap)
      requires a != this ==> CopyDefined(a.Value()) && Owned() !! a.Owned()
      modifies this, heap
      ensures a == this ==> img0 == old(img0) && img1 == old(img1) && heap.live == old(heap.live)
      ensures a != this ==> Value() == old(a.Value()) && a.Value() == old(a.Value())
      ensures a != this ==> fresh(img0) && fresh(img1) && Owned() !! old(heap.live)
      ensures a != this ==> heap.live == old(heap.live) - old(Owned()) + Owned()
      ensures Valid(heap) && a.Valid(heap)
    {
      if a != this {
        heap.Delete(img0);
        heap.Delete(img1);
        var c0 := new ImagesRaw.Copy(a.img0.frame);
        heap.Adopt(c0);
        var c1 := new ImagesRaw.Copy(a.img1.frame);
        heap.Adopt(c1);
        img0, img1 := c0, c1;
      }
    }

    /** Move assignment. Unless it is a self-assignment, it releases both images owned so far,
        takes the source's pointers and nulls them in the source. */
    method MoveAssign(a: PairImages, heap: Heap)
      requires Valid(heap) && a.Valid(heap)
      requires a != this ==> Owned() !! a.Owned()
      modifies this, a, heap
      ensures a == this ==> img0 == old(img0) && img1 == old(img1) && heap.live == old(heap.live)
      ensures a != this ==> img0 == old(a.img0) && img1 == old(a.img1) && a.Value() == MovedFrom
      ensures a != this ==> Value() == old(a.Value())
      ensures a != this ==> heap.live == old(heap.live) - old(Owned())
      ensures Valid(heap) && a.Valid(heap)
    {
      if a != this {
        heap.Delete(img0);
        heap.Delete(img1);
        img0, img1 := a.img0, a.img1;
        a.img0, a.img1 := null, null;
      }
    }

    /** Destructor: releases exactly the images the pair owns (nothing for a moved-from pair). */
    method Destroy(heap: Heap)
      requires Valid(heap)
      modifies heap
      ensures heap.live == old(heap.live) - Owned()
    {
      heap.Delete(img0);
      heap.Delete(img1);
    }
  }

  /** A pair built from one image saves exactly that image. */
  method SaveSingle(a: RawFrame, path: string, heap: Heap) returns (saved: seq<Saved>)
    modifies heap
    ensures saved == [Saved(path, a)]
  {
    var p := new PairImages.OfOne(a, heap);
    saved := p.SavePair(path);
  }
}
