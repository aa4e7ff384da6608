/** The older pair of `Images` records, owned through two pointers. Unlike the raw pair it has no
    notion of an absent second image: saving writes both. */
module PairImages {
  import opened Wrappers
  import opened Memory
  import opened Frames
  import opened Images

  /** One `saveData(path)` call on a slot's image. */
  datatype Saved = Saved(path: string, image: ImageRecord)

  /** The two slot values of a pair; None is a null slot pointer. */
  datatype ImagePair = ImagePair(slot0: Option<ImageRecord>, slot1: Option<ImageRecord>)

  class PairImages {
    var img0: Images?
    var img1: Images?

    ghost function Owned(): set<object>
      reads this
    {
      (if img0 == null then {} else {img0}) + (if img1 == null then {} else {img1})
    }

    ghost predicate Valid(heap: Heap)
      reads this, heap
    {
      Owned() <= heap.live && (img0 != null && img1 != null ==> img0 != img1)
    }

    function Value(): ImagePair
      reads this, img0, img1
    {
      ImagePair(if img0 == null then None else Some(img0.Value()),
                if img1 == null then None else Some(img1.Value()))
    }

    /** Both slots are non-null, as copying and saving require. */
    predicate Full()
      reads this
    {
      img0 != null && img1 != null
    }

    /** `PairImages()`: two new default records; their buffers are whatever the record's default
        constructor allocates, given here as `pixels0` and `pixels1`. */
    constructor (pixels0: Bytes, pixels1: Bytes, heap: Heap)
      modifies heap
      ensures Valid(heap) && fresh(img0) && fresh(img1)
      ensures HasDefaultMetadata(img0.Value()) && HasDefaultMetadata(img1.Value())
      ensures img0.Value().buffer == pixels0 && img1.Value().buffer == pixels1
      ensures heap.live == old(heap.live) + Owned()
    {
      var a := new Images(pixels0);
      heap.Adopt(a);
      var b := new Images(pixels1);
      heap.Adopt(b);
      img0, img1 := a, b;
    }

    /** `PairImages(a, b)`, in both its `const&` and `const&&` form (a `const` rvalue is copied):
        two new records equal to `a` and `b`. */
    constructor OfPair(a: Images, b: Images, heap: Heap)
      modifies heap
      ensures Valid(heap) && fresh(img0) && fresh(img1)
      ensures Value() == ImagePair(Some(a.Value()), Some(b.Value()))
      ensures heap.live == old(heap.live) + Owned()
    {
      var c0 := new Images.Copy(a);
      heap.Adopt(c0);
      var c1 := new Images.Copy(b);
      heap.Adopt(c1);
      img0, img1 := c0, c1;
    }

    /** Copy constructor: two new, independent records equal to the source's. */
    constructor Copy(a: PairImages, heap: Heap)
      requires a.Full()
      modifies heap
      ensures Valid(heap) && fresh(img0) && fresh(img1)
      ensures Value() == a.Value()
      ensures heap.live == old(heap.live) + Owned()
    {
      var c0 := new Images.Copy(a.img0);
      heap.Adopt(c0);
      var c1 := new Images.Copy(a.img1);
      heap.Adopt(c1);
      img0, img1 := c0, c1;
    }

    /** Move constructor: takes the source's pointers and nulls them in the source. */
    constructor Move(a: PairImages)
      modifies a
      ensures img0 == old(a.img0) && img1 == old(a.img1)
      ensures Value() == old(a.Value())
      ensures a.Value() == ImagePair(None, None) && a.Owned() == {}
    {
      img0, img1 := a.img0, a.img1;
      new;
      a.img0, a.img1 := null, null;
    }

    /** `savePair(path)`: saves both images, whatever their buffers hold. */
    method SavePair(path: string) returns (saved: seq<Saved>)
      requires Full()
      ensures saved == [Saved(path, img0.Value()), Saved(path, img1.Value())]
    {
      saved := [Saved(path, img0.Value())];
      saved := saved + [Saved(path, img1.Value())];
    }

    /** Copy assignment: unless it is a self-assignment, releases both owned records, then owns two
        new copies of the source's; the source is left as it was. */
    method Assign(a: PairImages, heap: Heap)
      requires Valid(heap) && a.Valid(heap)
      requires a != this ==> a.Full() && Owned() !! a.Owned()
      modifies this, heap
      ensures a == this ==> img0 == old(img0) && img1 == old(img1) && heap.live == old(heap.live)
      ensures a != this ==> Value() == old(a.Value()) && a.Value() == old(a.Value())
      ensures a != this ==> fresh(img0) && fresh(img1) && Owned() !! old(heap.live)
      ensures a != this ==> heap.live == old(heap.live) - old(Owned()) + Owned()
      ensures Valid(heap) && a.Valid(heap)
    {
      if a != this {
        heap.Delete(img0);
        heap.Delete(img1);
        img0 := new Images.Copy(a.img0);
        heap.Adopt(img0);
        img1 := new Images.Copy(a.img1);
        heap.Adopt(img1);
      }
    }

    /** Move assignment: unless it is a self-assignment, releases both owned records, takes the
        source's pointers and nulls them in the source. */
    method MoveAssign(a: PairImages, heap: Heap)
      requires Valid(heap) && a.Valid(heap)
      requires a != this ==> Owned() !! a.Owned()
      modifies this, a, heap
      ensures a == this ==> img0 == old(img0) && img1 == old(img1) && heap.live == old(heap.live)
      ensures a != this ==> img0 == old(a.img0) && img1 == old(a.img1)
      ensures a != this ==> Value() == old(a.Value()) && a.Value() == ImagePair(None, None)
      ensures a != this ==> heap.live == old(heap.live) - old(Owned())
      ensures Valid(heap) && a.Valid(heap)
    {
      if a != this {
        heap.Delete(img0);
        heap.Delete(img1);
        img0, img1 := a.img0, a.img1;
        a.img0, a.img1 := null, null;
      }
    }

    /** Destructor: releases exactly the owned records. */
    method Destroy(heap: Heap)
      requires Valid(heap)
      modifies heap
      ensures heap.live == old(heap.live) - Owned()
    {
      heap.Delete(img0);
      heap.Delete(img1);
    }
  }

  /** A copy is independent of its source: renumbering the copy leaves the source's value as it
      was. */
  method CopyIsIndependent(a: PairImages, n: int, heap: Heap) returns (before: ImagePair, after: ImagePair)
    requires a.Full()
    modifies heap
    ensures before == after
  {
    before := a.Value();
    var b := new PairImages.Copy(a, heap);
    b.img0.SetImgNumber(n);
    after := a.Value();
  }
}
