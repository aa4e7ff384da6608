/** The older image record: a pixel buffer with the acquisition metadata, and a setter and a
    getter for each field. */
module Images {
  import opened Frames

  /** The value of an image record. */
  datatype ImageRecord = ImageRecord(
    height: nat,
    width: nat,
    cameraIdx: nat,
    captureTime: string,
    exposureTime: real,
    gain: int,
    balanceR: real,
    balanceG: real,
    balanceB: real,
    autoExpTime: int,
    autoGain: int,
    numImages: int,
    serialNum: string,
    buffer: Bytes)

  /** The metadata every fresh record starts with; only the buffer depends on the constructor. */
  predicate HasDefaultMetadata(r: ImageRecord) {
    r.height == DefaultHeight && r.width == DefaultWidth && r.cameraIdx == 0
    && r.captureTime == "" && r.exposureTime == 0.0 && r.gain == 0
    && r.balanceR == 0.0 && r.balanceG == 0.0 && r.balanceB == 0.0
    && r.autoExpTime == 0 && r.autoGain == 0 && r.numImages == 0 && r.serialNum == ""
  }

  /** Number of buffer bytes the stream output shows before the ellipsis. */
  const PreviewLength: nat := 10

  class Images {
    var height: nat
    var width: nat
    var cameraIdx: nat
    var captureTime: string
    var exposureTime: real
    var gain: int
    var balanceR: real
    var balanceG: real
    var balanceB: real
    var autoExpTime: int
    var autoGain: int
    var numImages: int
    var serialNum: string
    var buffer: Bytes

    function Value(): ImageRecord
      reads this
    {
      ImageRecord(height, width, cameraIdx, captureTime, exposureTime, gain, balanceR, balanceG,
                  balanceB, autoExpTime, autoGain, numImages, serialNum, buffer)
    }

    /** A fresh record with the in-class defaults. Which buffer each constructor allocates is
        decided in the class's own implementation file, so it is a parameter here. */
    constructor (pixels: Bytes)
      ensures HasDefaultMetadata(Value()) && buffer == pixels
    {
      height, width, cameraIdx := DefaultHeight, DefaultWidth, 0;
      captureTime, exposureTime, gain := "", 0.0, 0;
      balanceR, balanceG, balanceB := 0.0, 0.0, 0.0;
      autoExpTime, autoGain, numImages, serialNum := 0, 0, 0, "";
      buffer := pixels;
    }

    /** Copy constructor: a record with the same value as `a`. */
    constructor Copy(a: Images)
      ensures Value() == a.Value()
    {
      height, width, cameraIdx := a.height, a.width, a.cameraIdx;
      captureTime, exposureTime, gain := a.captureTime, a.exposureTime, a.gain;
      balanceR, balanceG, balanceB := a.balanceR, a.balanceG, a.balanceB;
      autoExpTime, autoGain, numImages, serialNum := a.autoExpTime, a.autoGain, a.numImages, a.serialNum;
      buffer := a.buffer;
    }

    // Getters.

    function GetHeight(): nat reads this { height }
    function GetWidth(): nat reads this { width }
    function GetCameraIdx(): nat reads this { cameraIdx }
    function GetCaptureTime(): string reads this { captureTime }
    function GetExposureTime(): real reads this { exposureTime }
    function GetGain(): int reads this { gain }
    function GetBalanceR(): real reads this { balanceR }
    function GetBalanceG(): real reads this { balanceG }
    function GetBalanceB(): real reads this { balanceB }
    function GetSerialNumber(): string reads this { serialNum }
    function GetAutoExpTime(): int reads this { autoExpTime }
    function GetAutoGain(): int reads this { autoGain }
    function GetImgNumber(): int reads this { numImages }

    /** `getImgBufferSize`: the number of bytes in the owned pixel buffer. */
    function GetImgBufferSize(): (n: nat)
      reads this
      ensures n == |Value().buffer|
    {
      |buffer|
    }

    // Setters: each changes its own field and nothing else; its getter then returns the value set.

    method SetHeight(h: nat)
      modifies this
      ensures Value() == old(Value()).(height := h) && GetHeight() == h
    {
      height := h;
    }

    method SetWidth(w: nat)
      modifies this
      ensures Value() == old(Value()).(width := w) && GetWidth() == w
    {
      width := w;
    }

    method SetCameraIdx(idx: nat)
      modifies this
      ensures Value() == old(Value()).(cameraIdx := idx) && GetCameraIdx() == idx
    {
      cameraIdx := idx;
    }

    method SetCaptureTime(ct: string)
      modifies this
      ensures Value() == old(Value()).(captureTime := ct) && GetCaptureTime() == ct
    {
      captureTime := ct;
    }

    method SetExposureTime(et: real)
      modifies this
      ensures Value() == old(Value()).(exposureTime := et) && GetExposureTime() == et
    {
      exposureTime := et;
    }

    method SetGain(g: int)
      modifies this
      ensures Value() == old(Value()).(gain := g) && GetGain() == g
    {
      gain := g;
    }

    method SetBalanceR(r: real)
      modifies this
      ensures Value() == old(Value()).(balanceR := r) && GetBalanceR() == r
    {
      balanceR := r;
    }

    method SetBalanceG(g: real)
      modifies this
      ensures Value() == old(Value()).(balanceG := g) && GetBalanceG() == g
    {
      balanceG := g;
    }

    method SetBalanceB(b: real)
      modifies this
      ensures Value() == old(Value()).(balanceB := b) && GetBalanceB() == b
    {
      balanceB := b;
    }

    method SetAutoExpTime(b: int)
      modifies this
      ensures Value() == old(Value()).(autoExpTime := b) && GetAutoExpTime() == b
    {
      autoExpTime := b;
    }

    method SetAutoGain(b: int)
      modifies this
      ensures Value() == old(Value()).(autoGain := b) && GetAutoGain() == b
    {
      autoGain := b;
    }

    method SetSerialNumber(sn: string)
      modifies this
      ensures Value() == old(Value()).(serialNum := sn) && GetSerialNumber() == sn
    {
      serialNum := sn;
    }

    method SetImgNumber(n: int)
      modifies this
      ensures Value() == old(Value()).(numImages := n) && GetImgNumber() == n
    {
      numImages := n;
    }

    /** The byte part of the stream output: the first ten buffer bytes as integers. It indexes
        the buffer without a bound check, so a buffer of at least ten bytes is required. */
    method Preview() returns (shown: seq<int>)
      requires |buffer| >= PreviewLength
      ensures |shown| == PreviewLength
      ensures forall i :: 0 <= i < PreviewLength ==> shown[i] == buffer[i] as int && 0 <= shown[i] < 256
    {
      shown := [];
      var i := 0;
      while i < PreviewLength
        invariant 0 <= i <= PreviewLength && |shown| == i
        invariant forall j :: 0 <= j < i ==> shown[j] == buffer[j] as int && 0 <= shown[j] < 256
      {
        shown := shown + [buffer[i] as int];
        i := i + 1;
      }
    }
  }

  /** Setting a field on a fresh record changes only that field: the other defaults remain. */
  method FreshRecordWithImgNumber(pixels: Bytes, n: int) returns (r: ImageRecord)
    ensures r.numImages == n && r.buffer == pixels
    ensures HasDefaultMetadata(r.(numImages := 0))
  {
    var img := new Images(pixels);
    img.SetImgNumber(n);
    r := img.Value();
  }
}
