/** One acquisition step, as a function of what the camera array delivers: the grab results that
    arrive in order, each tagged with the array index of its camera. The results are routed to the
    two images of a pair by the serial-number ranking; a failed or missing result aborts the step
    and no pair is produced. */
module Acquisition {
  import opened Wrappers
  import opened Text
  import opened Frames
  import opened Selection

  /** A grab result. `context` is the camera context, the array index given to each camera during
      initialisation; the chunk fields are None when the chunk is not readable. */
  datatype GrabResult = GrabResult(
    context: nat,
    succeeded: bool,
    buffer: Bytes,
    chunkPayload: bool,
    chunkTimestamp: Option<int>,
    chunkExposure: Option<real>,
    chunkGain: Option<int>)

  /** What one retrieval with a time-out yields: a result, or the time-out exception. */
  datatype Retrieval = Timeout | Retrieved(result: GrabResult)

  /** Why a step produced no pair; each is an exception caught by the step. */
  datatype GrabError = RetrievalTimeout | UnexpectedPayload | IncompleteGrab

  /** White-balance ratios read from a camera at initialisation. */
  datatype Balance = Balance(r: real, g: real, b: real)

  /** The state of the camera object a step reads. */
  datatype GrabSetup = GrabSetup(
    n: nat,
    sortedIdx: seq<nat>,
    serials: seq<string>,
    externalTrigger: bool,
    chunkFeatures: bool,
    autoExpTimeCont: bool,
    autoGainCont: bool,
    balance0: Balance,
    balance1: Balance)

  /** One or two cameras in use, ranked by a permutation of their array indices. */
  predicate ValidSetup(g: GrabSetup) {
    1 <= g.n <= MaxCamerasToUse && IsPermutation(g.sortedIdx, g.n) && |g.serials| == g.n
  }

  /** The i-th retrieval; past the given ones the retrieval times out. */
  function Next(rs: seq<Retrieval>, i: nat): Retrieval {
    if i < |rs| then rs[i] else Timeout
  }

  /** Every delivered result carries the context of one of the cameras in use. */
  predicate ContextsInRange(rs: seq<Retrieval>, n: nat) {
    forall i :: 0 <= i < |rs| && rs[i].Retrieved? ==> rs[i].result.context < n
  }

  /** The two images a step fills. */
  datatype Slots = Slots(img0: RawFrame, img1: RawFrame)

  function At(s: Slots, k: nat): RawFrame {
    if k == 0 then s.img0 else s.img1
  }

  function BoolInt(b: bool): int {
    if b then 1 else 0
  }

  /** The serial number as stored in an image: the first word read back from a string stream,
      or the empty string when there is none. */
  function SerialText(serial: string): string {
    FirstWord(serial).GetOr("")
  }

  /** The metadata an image gets before any result arrives. */
  function Prepared(cameraIdx: nat, g: GrabSetup, serial: string): RawFrame {
    EmptyFrame.(info := EmptyFrame.info.(
      cameraIdx := cameraIdx,
      autoExpTime := BoolInt(g.autoExpTimeCont),
      autoGain := BoolInt(g.autoGainCont),
      serialNum := SerialText(serial)))
  }

  /** The images before the loop: the first for the camera ranked first, the second, when there
      are two cameras, for the camera ranked second; otherwise the second stays default. */
  function InitialSlots(g: GrabSetup): Slots
    requires ValidSetup(g)
  {
    Slots(Prepared(0, g, g.serials[g.sortedIdx[0]]),
          if g.n == 2 then Prepared(1, g, g.serials[g.sortedIdx[1]]) else EmptyFrame)
  }

  /** Whether a retrieval lets the step go on: a result that succeeded and, with chunk features,
      carries a chunk-data payload. */
  predicate Accepted(g: GrabSetup, x: Retrieval) {
    x.Retrieved? && x.result.succeeded && (g.chunkFeatures ==> x.result.chunkPayload)
  }

  /** The CPU capture time given to result i: the popped trigger stamp with software
      triggering, a fresh clock reading with an external trigger. */
  function CpuTime(g: GrabSetup, stamp: string, clock: nat -> string, i: nat): string {
    if g.externalTrigger then clock(i) else stamp
  }

  /** The camera time stamp, exposure and gain of a result: its chunks when chunk features are
      on and the chunk is readable, the zero values otherwise. The gain chunk is a 64-bit value
      stored in an `int`. */
  function CamTime(g: GrabSetup, r: GrabResult): string {
    if g.chunkFeatures && r.chunkTimestamp.Some? then SignedDecimal(r.chunkTimestamp.value) else ""
  }

  function ExposureOf(g: GrabSetup, r: GrabResult): real {
    if g.chunkFeatures && r.chunkExposure.Some? then r.chunkExposure.value else 0.0
  }

  function GainOf(g: GrabSetup, r: GrabResult): int {
    if g.chunkFeatures && r.chunkGain.Some? then ToInt32(r.chunkGain.value) else 0
  }

  /** The image slot a result is copied into: the first when the ranking entry at the result's
      array index is 0, the second otherwise. */
  function RoutedSlot(g: GrabSetup, r: GrabResult): nat
    requires ValidSetup(g) && r.context < g.n
  {
    if g.sortedIdx[r.context] == 0 then 0 else 1
  }

  function BalanceOf(g: GrabSetup, k: nat): Balance {
    if k == 0 then g.balance0 else g.balance1
  }

  /** A result written into an image: its pixels, its times, exposure, gain and the slot's
      balance ratios; the other metadata stays. */
  function Write(g: GrabSetup, r: GrabResult, cpuTime: string, bal: Balance, f: RawFrame): RawFrame {
    RawFrame(f.info.(
      captureCPUTime := cpuTime,
      captureCamTime := CamTime(g, r),
      exposureTime := ExposureOf(g, r),
      gain := GainOf(g, r),
      balanceR := bal.r,
      balanceG := bal.g,
      balanceB := bal.b), r.buffer)
  }

  /** The effect of an accepted result on the two images. */
  function Route(g: GrabSetup, r: GrabResult, cpuTime: string, s: Slots): Slots
    requires ValidSetup(g) && r.context < g.n
  {
    if RoutedSlot(g, r) == 0 then s.(img0 := Write(g, r, cpuTime, g.balance0, s.img0))
    else s.(img1 := Write(g, r, cpuTime, g.balance1, s.img1))
  }

  /** The loop over the cameras from iteration i on, starting from images `s`. */
  function Collect(g: GrabSetup, rs: seq<Retrieval>, stamp: string, clock: nat -> string, i: nat, s: Slots): Result<Slots, GrabError>
    requires ValidSetup(g) && ContextsInRange(rs, g.n) && i <= g.n
    decreases g.n - i
  {
    if i == g.n then Ok(s)
    else
      var x := Next(rs, i);
      if x.Timeout? then Err(RetrievalTimeout)
      else if !x.result.succeeded then Err(IncompleteGrab)
      else if g.chunkFeatures && !x.result.chunkPayload then Err(UnexpectedPayload)
      else Collect(g, rs, stamp, clock, i + 1, Route(g, x.result, CpuTime(g, stamp, clock, i), s))
  }

  /** One turn of the loop: a result that is not accepted ends it with that result's error; an
      accepted one is routed and the loop goes on with the next camera. */
  lemma CollectStep(g: GrabSetup, rs: seq<Retrieval>, stamp: string, clock: nat -> string, i: nat, s: Slots)
    requires ValidSetup(g) && ContextsInRange(rs, g.n) && i < g.n
    ensures Next(rs, i).Timeout? ==> Collect(g, rs, stamp, clock, i, s) == Err(RetrievalTimeout)
    ensures Next(rs, i).Retrieved? && !Next(rs, i).result.succeeded ==> Collect(g, rs, stamp, clock, i, s) == Err(IncompleteGrab)
    ensures Next(rs, i).Retrieved? && Next(rs, i).result.succeeded && g.chunkFeatures && !Next(rs, i).result.chunkPayload ==>
      Collect(g, rs, stamp, clock, i, s) == Err(UnexpectedPayload)
    ensures Accepted(g, Next(rs, i)) ==>
      Collect(g, rs, stamp, clock, i, s) == Collect(g, rs, stamp, clock, i + 1, Route(g, Next(rs, i).result, CpuTime(g, stamp, clock, i), s))
  {
  }

  /** One acquisition step: the pair it pushes, or the error that stopped it. */
  function Grab(g: GrabSetup, rs: seq<Retrieval>, stamp: string, clock: nat -> string): Result<Pair, GrabError>
    requires ValidSetup(g) && ContextsInRange(rs, g.n)
  {
    match Collect(g, rs, stamp, clock, 0, InitialSlots(g))
    case Ok(s) => Ok(Pair(Some(s.img0), Some(s.img1)))
    case Err(e) => Err(e)
  }

  /** The retrieval loop of one acquisition step: prepares the two images, then takes one
      result per camera and copies each into the image of its camera's rank; the first result
      that is not accepted stops the loop with its error. */
  method AcquirePair(g: GrabSetup, rs: seq<Retrieval>, stamp: string, clock: nat -> string)
    returns (failure: Option<GrabError>, img0: RawFrame, img1: RawFrame)
    requires ValidSetup(g) && ContextsInRange(rs, g.n)
    ensures match Grab(g, rs, stamp, clock)
      case Ok(p) => failure == None && p == Pair(Some(img0), Some(img1))
      case Err(e) => failure == Some(e)
  {
    var captureTimeCPU := stamp;
    img0 := EmptyFrame;
    img1 := EmptyFrame;
    if g.n >= 1 {
      img0 := Prepared(0, g, g.serials[g.sortedIdx[0]]);
    }
    if g.n == 2 {
      img1 := Prepared(1, g, g.serials[g.sortedIdx[1]]);
    }
    assert Slots(img0, img1) == InitialSlots(g);
    failure := None;
    var i := 0;
    while i < g.n && failure == None
      invariant 0 <= i <= g.n
      invariant !g.externalTrigger ==> captureTimeCPU == stamp
      invariant failure == None ==>
        Collect(g, rs, stamp, clock, 0, InitialSlots(g)) == Collect(g, rs, stamp, clock, i, Slots(img0, img1))
      invariant failure != None ==> Collect(g, rs, stamp, clock, 0, InitialSlots(g)) == Err(failure.value)
      decreases g.n - i
    {
      var before := Slots(img0, img1);
      var x := Next(rs, i);
      CollectStep(g, rs, stamp, clock, i, before);
      if x.Timeout? {
        failure := Some(RetrievalTimeout);
      } else if !x.result.succeeded {
        failure := Some(IncompleteGrab);
      } else {
        var r := x.result;
        if g.externalTrigger {
          captureTimeCPU := clock(i);
        }
        if g.chunkFeatures && !r.chunkPayload {
          failure := Some(UnexpectedPayload);
        } else {
          var captureTimeCam := "";
          var exposure := 0.0;
          var gainRead := 0;
          if g.chunkFeatures {
            if r.chunkTimestamp.Some? { captureTimeCam := SignedDecimal(r.chunkTimestamp.value); }
            if r.chunkExposure.Some? { exposure := r.chunkExposure.value; }
            if r.chunkGain.Some? { gainRead := ToInt32(r.chunkGain.value); }
          }
          if g.sortedIdx[r.context] == 0 {
            img0 := RawFrame(img0.info.(captureCPUTime := captureTimeCPU, captureCamTime := captureTimeCam,
                                        exposureTime := exposure, gain := gainRead,
                                        balanceR := g.balance0.r, balanceG := g.balance0.g, balanceB := g.balance0.b), r.buffer);
          } else {
            img1 := RawFrame(img1.info.(captureCPUTime := captureTimeCPU, captureCamTime := captureTimeCam,
                                        exposureTime := exposure, gain := gainRead,
                                        balanceR := g.balance1.r, balanceG := g.balance1.g, balanceB := g.balance1.b), r.buffer);
          }
          assert Slots(img0, img1) == Route(g, r, CpuTime(g, stamp, clock, i), before);
        }
      }
      i := i + 1;
    }
    if failure == None {
      assert Collect(g, rs, stamp, clock, 0, InitialSlots(g)) == Ok(Slots(img0, img1));
    }
  }

  // ----- Properties -----

  lemma {:induction false} CollectOkIff(g: GrabSetup, rs: seq<Retrieval>, stamp: string, clock: nat -> string, i: nat, s: Slots)
    requires ValidSetup(g) && ContextsInRange(rs, g.n) && i <= g.n
    ensures Collect(g, rs, stamp, clock, i, s).Ok? <==> forall j :: i <= j < g.n ==> Accepted(g, Next(rs, j))
    decreases g.n - i
  {
    if i < g.n && Accepted(g, Next(rs, i)) {
      var x := Next(rs, i);
      CollectOkIff(g, rs, stamp, clock, i + 1, Route(g, x.result, CpuTime(g, stamp, clock, i), s));
    }
  }

  /** A step produces a pair exactly when each of the n retrievals delivers a result that
      succeeded, with a chunk-data payload when chunk features are on. */
  lemma GrabSucceedsIff(g: GrabSetup, rs: seq<Retrieval>, stamp: string, clock: nat -> string)
    requires ValidSetup(g) && ContextsInRange(rs, g.n)
    ensures Grab(g, rs, stamp, clock).Ok? <==> forall j :: 0 <= j < g.n ==> Accepted(g, Next(rs, j))
  {
    CollectOkIff(g, rs, stamp, clock, 0, InitialSlots(g));
  }

  /** The error a step reports is the one of its first unaccepted retrieval. */
  lemma {:induction false} CollectErrorIsFirstFailure(g: GrabSetup, rs: seq<Retrieval>, stamp: string, clock: nat -> string, i: nat, s: Slots, j: nat)
    requires ValidSetup(g) && ContextsInRange(rs, g.n) && i <= j < g.n
    requires !Accepted(g, Next(rs, j)) && forall k :: i <= k < j ==> Accepted(g, Next(rs, k))
    ensures Collect(g, rs, stamp, clock, i, s) ==
      Err(if Next(rs, j).Timeout? then RetrievalTimeout
          else if !Next(rs, j).result.succeeded then IncompleteGrab
          else UnexpectedPayload)
    decreases j - i
  {
    if i < j {
      var x := Next(rs, i);
      assert Accepted(g, x);
      CollectErrorIsFirstFailure(g, rs, stamp, clock, i + 1, Route(g, x.result, CpuTime(g, stamp, clock, i), s), j);
    }
  }

  /** Each image is the one it started as, or has been written with the trigger stamp. */
  predicate StampedOrUntouched(s: Slots, start: Slots, stamp: string) {
    (s.img0 == start.img0 || s.img0.info.captureCPUTime == stamp)
    && (s.img1 == start.img1 || s.img1.info.captureCPUTime == stamp)
  }

  lemma {:induction false} CollectStamps(g: GrabSetup, rs: seq<Retrieval>, stamp: string, clock: nat -> string, i: nat, s: Slots, start: Slots)
    requires ValidSetup(g) && ContextsInRange(rs, g.n) && i <= g.n && !g.externalTrigger
    requires StampedOrUntouched(s, start, stamp)
    ensures Collect(g, rs, stamp, clock, i, s).Ok? ==> StampedOrUntouched(Collect(g, rs, stamp, clock, i, s).value, start, stamp)
    decreases g.n - i
  {
    if i < g.n && Accepted(g, Next(rs, i)) {
      var x := Next(rs, i);
      CollectStamps(g, rs, stamp, clock, i + 1, Route(g, x.result, CpuTime(g, stamp, clock, i), s), start);
    }
  }

  /** With software triggering every image that received a result carries the one trigger time
      stamp the step popped. */
  lemma SoftwareTriggerStampsEveryImage(g: GrabSetup, rs: seq<Retrieval>, stamp: string, clock: nat -> string)
    requires ValidSetup(g) && ContextsInRange(rs, g.n) && !g.externalTrigger
    requires Grab(g, rs, stamp, clock).Ok?
    ensures var p := Grab(g, rs, stamp, clock).value;
      var start := InitialSlots(g);
      (p.slot0.value == start.img0 || p.slot0.value.info.captureCPUTime == stamp)
      && (p.slot1.value == start.img1 || p.slot1.value.info.captureCPUTime == stamp)
  {
    CollectStamps(g, rs, stamp, clock, 0, InitialSlots(g), InitialSlots(g));
  }

  /** The write of retrieval j into slot k. */
  function WriteAt(g: GrabSetup, rs: seq<Retrieval>, stamp: string, clock: nat -> string, j: nat, k: nat, f: RawFrame): RawFrame
    requires Next(rs, j).Retrieved?
  {
    Write(g, Next(rs, j).result, CpuTime(g, stamp, clock, j), BalanceOf(g, k), f)
  }

  /** Whether retrieval j delivers a result routed to slot k. */
  predicate RoutedTo(g: GrabSetup, rs: seq<Retrieval>, j: nat, k: nat)
    requires ValidSetup(g) && ContextsInRange(rs, g.n)
  {
    Next(rs, j).Retrieved? && RoutedSlot(g, Next(rs, j).result) == k
  }

  lemma RouteAt(g: GrabSetup, r: GrabResult, cpuTime: string, s: Slots, k: nat)
    requires ValidSetup(g) && r.context < g.n && k <= 1
    ensures At(Route(g, r, cpuTime, s), k) ==
      if RoutedSlot(g, r) == k then Write(g, r, cpuTime, BalanceOf(g, k), At(s, k)) else At(s, k)
  {
  }

  /** The last result routed to a slot decides it; a slot no result is routed to keeps its
      starting value. */
  lemma {:induction false} CollectLastWriter(g: GrabSetup, rs: seq<Retrieval>, stamp: string, clock: nat -> string, i: nat, s: Slots, k: nat)
    requires ValidSetup(g) && ContextsInRange(rs, g.n) && i <= g.n && k <= 1
    requires Collect(g, rs, stamp, clock, i, s).Ok?
    ensures var out := At(Collect(g, rs, stamp, clock, i, s).value, k);
      && ((forall j :: i <= j < g.n ==> !RoutedTo(g, rs, j, k)) ==> out == At(s, k))
      && (forall j :: i <= j < g.n && RoutedTo(g, rs, j, k) && (forall m :: j < m < g.n ==> !RoutedTo(g, rs, m, k)) ==>
            out == WriteAt(g, rs, stamp, clock, j, k, At(s, k)))
    decreases g.n - i
  {
    if i < g.n {
      CollectOkIff(g, rs, stamp, clock, i, s);
      var x := Next(rs, i);
      assert Accepted(g, x);
      var s' := Route(g, x.result, CpuTime(g, stamp, clock, i), s);
      CollectLastWriter(g, rs, stamp, clock, i + 1, s', k);
      RouteAt(g, x.result, CpuTime(g, stamp, clock, i), s, k);
      if forall j :: i <= j < g.n ==> !RoutedTo(g, rs, j, k) {
        assert !RoutedTo(g, rs, i, k);
      }
    }
  }

  /** The frame of the camera ranked first, when exactly one of the n results comes from it,
      becomes the first image, with that camera's serial, the balance of the first slot and, with
      software triggering, the popped trigger stamp. This relies on the ranking being its own
      inverse, which holds for one or two cameras. */
  lemma FirstRankedCameraFillsFirstImage(g: GrabSetup, rs: seq<Retrieval>, stamp: string, clock: nat -> string, j: nat)
    requires ValidSetup(g) && ContextsInRange(rs, g.n) && Grab(g, rs, stamp, clock).Ok?
    requires j < g.n && Next(rs, j).Retrieved? && Next(rs, j).result.context == g.sortedIdx[0]
    requires forall m :: 0 <= m < g.n && m != j && Next(rs, m).Retrieved? ==> Next(rs, m).result.context != g.sortedIdx[0]
    ensures var img0 := Grab(g, rs, stamp, clock).value.slot0.value;
      && img0.buffer == Next(rs, j).result.buffer
      && img0.info.cameraIdx == 0
      && img0.info.serialNum == SerialText(g.serials[g.sortedIdx[0]])
      && Balance(img0.info.balanceR, img0.info.balanceG, img0.info.balanceB) == g.balance0
      && (!g.externalTrigger ==> img0.info.captureCPUTime == stamp)
  {
    forall m | 0 <= m < g.n && Next(rs, m).Retrieved?
      ensures RoutedTo(g, rs, m, 0) <==> m == j
    {
      RoutingByArrayIndexIsSound(g.sortedIdx, g.n, Next(rs, m).result.context);
    }
    CollectLastWriter(g, rs, stamp, clock, 0, InitialSlots(g), 0);
  }

  /** With two cameras, the frame of the camera ranked second, when exactly one of the results
      comes from it, becomes the second image, with that camera's serial and the second slot's
      balance. */
  lemma SecondRankedCameraFillsSecondImage(g: GrabSetup, rs: seq<Retrieval>, stamp: string, clock: nat -> string, j: nat)
    requires ValidSetup(g) && ContextsInRange(rs, g.n) && Grab(g, rs, stamp, clock).Ok? && g.n == 2
    requires j < g.n && Next(rs, j).Retrieved? && Next(rs, j).result.context == g.sortedIdx[1]
    requires forall m :: 0 <= m < g.n && m != j && Next(rs, m).Retrieved? ==> Next(rs, m).result.context != g.sortedIdx[1]
    ensures var img1 := Grab(g, rs, stamp, clock).value.slot1.value;
      && img1.buffer == Next(rs, j).result.buffer
      && img1.info.cameraIdx == 1
      && img1.info.serialNum == SerialText(g.serials[g.sortedIdx[1]])
      && Balance(img1.info.balanceR, img1.info.balanceG, img1.info.balanceB) == g.balance1
      && (!g.externalTrigger ==> img1.info.captureCPUTime == stamp)
  {
    SmallPermutationIsInvolution(g.sortedIdx, g.n);
    forall m | 0 <= m < g.n && Next(rs, m).Retrieved?
      ensures RoutedTo(g, rs, m, 1) <==> m == j
    {
      RoutingByArrayIndexIsSound(g.sortedIdx, g.n, Next(rs, m).result.context);
    }
    CollectLastWriter(g, rs, stamp, clock, 0, InitialSlots(g), 1);
  }

  /** With one camera every result is routed to the first slot, so the second image of a pair
      is the default-constructed one, with an empty buffer: the pair has no second image, and
      saving and numbering skip it. */
  lemma OneCameraPairHasNoSecond(g: GrabSetup, rs: seq<Retrieval>, stamp: string, clock: nat -> string)
    requires ValidSetup(g) && ContextsInRange(rs, g.n) && Grab(g, rs, stamp, clock).Ok? && g.n == 1
    ensures Grab(g, rs, stamp, clock).value.slot1 == Some(EmptyFrame)
    ensures !HasSecond(Grab(g, rs, stamp, clock).value)
  {
    forall j | 0 <= j < g.n
      ensures !RoutedTo(g, rs, j, 1)
    {
      if Next(rs, j).Retrieved? {
        assert g.sortedIdx[Next(rs, j).result.context] < 1;
      }
    }
    CollectLastWriter(g, rs, stamp, clock, 0, InitialSlots(g), 1);
  }

  /** Nothing checks that the results come from different cameras: two results from the same
      camera still give a pair, whose second image never received a frame. */
  lemma DuplicateContextStillEmitsPair()
    ensures var g := GrabSetup(2, [0, 1], ["A", "B"], false, false, false, false,
                               Balance(1.0, 1.0, 1.0), Balance(2.0, 2.0, 2.0));
      var r := GrabResult(0, true, [7], false, None, None, None);
      var rs := [Retrieved(r), Retrieved(r)];
      ValidSetup(g) && ContextsInRange(rs, 2)
      && Grab(g, rs, "t", _ => "").Ok?
      && Grab(g, rs, "t", _ => "").value.slot1 == Some(InitialSlots(g).img1)
      && !HasSecond(Grab(g, rs, "t", _ => "").value)
  {
    var g := GrabSetup(2, [0, 1], ["A", "B"], false, false, false, false,
                       Balance(1.0, 1.0, 1.0), Balance(2.0, 2.0, 2.0));
    var r := GrabResult(0, true, [7], false, None, None, None);
    var rs := [Retrieved(r), Retrieved(r)];
    var clock: nat -> string := _ => "";
    assert IsPermutation(g.sortedIdx, 2);
    assert ValidSetup(g);
    assert Next(rs, 0) == Retrieved(r) && Next(rs, 1) == Retrieved(r);
    assert RoutedSlot(g, r) == 0;
    GrabSucceedsIff(g, rs, "t", clock);
    CollectLastWriter(g, rs, "t", clock, 0, InitialSlots(g), 1);
    assert InitialSlots(g).img1.buffer == [];
  }
}
