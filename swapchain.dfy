/** The conformance layer's swapchain image-lifecycle validator: the hooks around
    xrCreateSwapchain, xrEnumerateSwapchainImages, xrAcquireSwapchainImage,
    xrWaitSwapchainImage and xrReleaseSwapchainImage, which check the
    acquire/wait/release rules of section 10.1 (Swapchains) of the OpenXR 1.0
    specification.

    Each hook first calls the runtime; the runtime's answer (its XrResult and the
    values it wrote through output pointers) is a parameter here. The hook then
    updates the per-swapchain state and reports non-conformance, which the model
    records in a ghost log, without ever changing the result it returns.

    The pure functions `Enumerate`, `Acquire`, `Wait` and `Release` give the effect
    of one hook on the abstract state `Chain`; the class `SwapchainState` holds the
    state the layer mutates and its methods are proved against those functions. */
module Swapchain {
  import opened Wrappers

  /** State of one swapchain image as tracked by the layer. */
  datatype ImageState = Created | Acquired | Waited | Released

  /** Name printed for an image state in the layer's messages. */
  function ToStr(state: ImageState): (name: string)
    ensures name != "unknown" && |name| >= 6
  {
    match state
    case Created => "Created"
    case Acquired => "Acquired"
    case Waited => "Waited"
    case Released => "Released"
  }

  lemma ToStrInjective(a: ImageState, b: ImageState)
    ensures ToStr(a) == ToStr(b) <==> a == b
  {
  }

  // XrResult values the hooks test for.
  const XR_SUCCESS: int := 0
  const XR_TIMEOUT_EXPIRED: int := 1

  /** XR_SUCCEEDED: success codes are the non-negative XrResult values. */
  predicate Succeeded(result: int) {
    result >= 0
  }

  /** XR_SWAPCHAIN_CREATE_STATIC_IMAGE_BIT of XrSwapchainCreateFlags. */
  const XR_SWAPCHAIN_CREATE_STATIC_IMAGE_BIT: bv64 := 0x2

  /** One non-conformance report of the layer. */
  datatype Violation =
    | EmptyImageCount                                // "Invalid empty image count."
    | StaticImageCount(count: nat)                   // "Invalid image count %d for static swapchain."
    | ImageCountChanged(count: nat, previous: nat)   // "Image count %d differs from previous count %d."
    | ProbeFailed(result: int)                       // "Unable to enumerate swapchain images due to error %s"
    | IndexOutOfBounds(index: nat)                   // "Out-of-bounds image index."
    | AcquiredWhileWaited(index: nat)                // "Acquired image in Waited state."
    | AcquiredWhileAcquired(index: nat)              // "Acquired image already in Acquired state."
    | StaticReacquired(index: nat)                   // "Static image cannot be acquired again."
    | WaitedEarly(elapsed: int, timeout: int)        // "Wait returned before timeout."
    | WaitWrongState(index: nat, state: ImageState)  // "Wait succeeded for image in wrong state %s"
    | WaitWithoutAcquire                             // "Wait succeeded with no acquired image."
    | ReleaseWrongState(index: nat, state: ImageState) // "Release succeeded for image in wrong state %s"
    | ReleaseWithoutAcquire                          // "Release succeeded with no acquired image."

  /** The tracked state of one swapchain: `images` is `imageStates`, `queue` is the
      FIFO `acquiredSwapchains` (front at position 0). */
  datatype Chain = Chain(images: seq<ImageState>, queue: seq<nat>)

  /** The effect of one hook: the new state and the reports it made, in order. */
  datatype Step = Step(next: Chain, reported: seq<Violation>)

  /** Every queued index names an image. The hooks index `imageStates` with the queue
      front without a check, so this is what makes them well defined. */
  ghost predicate InBounds(c: Chain) {
    forall k :: 0 <= k < |c.queue| ==> c.queue[k] < |c.images|
  }

  /** A non-empty queue implies sized images: the queue front is an index into them. */
  lemma QueueNeedsImages(c: Chain)
    requires InBounds(c)
    ensures |c.images| == 0 ==> c.queue == []
  {
    if |c.queue| > 0 {
      assert c.queue[0] < |c.images|;
    }
  }

  // ---------------------------------------------------------------------------
  // xrEnumerateSwapchainImages
  // ---------------------------------------------------------------------------

  /** A successful enumerate that reported `count` through a non-null count output. */
  function EnumerateCount(c: Chain, isStatic: bool, count: nat): Step {
    var images := if |c.images| == 0 then seq(count, _ => Created) else c.images;
    Step(Chain(images, c.queue),
         (if count == 0 then [EmptyImageCount] else [])
         + (if count != 1 && isStatic then [StaticImageCount(count)] else [])
         + (if |images| != count then [ImageCountChanged(count, |images|)] else []))
  }

  /** The enumerate hook: validation only runs on success with a count output. */
  function Enumerate(c: Chain, isStatic: bool, result: int, countOutput: Option<nat>): Step {
    if Succeeded(result) && countOutput.Some? then EnumerateCount(c, isStatic, countOutput.value)
    else Step(c, [])
  }

  /** Sizing rules: the first enumerate sizes `images` to the reported count, all
      Created; once non-empty the state never changes; a different count, a zero count
      and a count other than 1 on a static swapchain are reported, and nothing else is. */
  lemma EnumerateSizing(c: Chain, isStatic: bool, count: nat)
    ensures |c.images| == 0 ==> EnumerateCount(c, isStatic, count).next == Chain(seq(count, _ => Created), c.queue)
    ensures |c.images| > 0 ==> EnumerateCount(c, isStatic, count).next == c
    ensures (ImageCountChanged(count, |c.images|) in EnumerateCount(c, isStatic, count).reported)
              <==> (|c.images| > 0 && |c.images| != count)
    ensures count == 0 ==> EmptyImageCount in EnumerateCount(c, isStatic, count).reported
    ensures count == 0 && |c.images| == 0 ==> EnumerateCount(c, isStatic, count).next.images == []
    ensures isStatic && count != 1 ==> StaticImageCount(count) in EnumerateCount(c, isStatic, count).reported
    ensures (EnumerateCount(c, isStatic, count).reported == [])
              <==> (count > 0 && (!isStatic || count == 1) && (|c.images| == 0 || |c.images| == count))
  {
    var s := EnumerateCount(c, isStatic, count);
    if |c.images| > 0 && |c.images| != count {
      assert ImageCountChanged(count, |c.images|) == s.reported[|s.reported| - 1];
    }
  }

  /** Repeating an enumerate that reports the established count changes nothing and
      reports nothing. */
  lemma EnumerateIdempotent(c: Chain, isStatic: bool, result: int, count: nat)
    requires Succeeded(result) && count > 0 && |c.images| == count
    requires !isStatic || count == 1
    ensures Enumerate(c, isStatic, result, Some(count)) == Step(c, [])
  {
  }

  // ---------------------------------------------------------------------------
  // xrAcquireSwapchainImage
  // ---------------------------------------------------------------------------

  /** The enumerate Acquire runs on its own when `imageStates` is still empty: capacity
      0, a non-null count output, no image array. `probeResult` and `probeCount` are the
      runtime's answer to it. */
  function Probe(c: Chain, isStatic: bool, probeResult: int, probeCount: nat): Step {
    var e := Enumerate(c, isStatic, probeResult, Some(probeCount));
    Step(e.next, e.reported + (if Succeeded(probeResult) then [] else [ProbeFailed(probeResult)]))
  }

  /** What Acquire does before it looks at the target image: probe when empty. */
  function SizedForAcquire(c: Chain, isStatic: bool, probeResult: int, probeCount: nat): Step {
    if |c.images| == 0 then Probe(c, isStatic, probeResult, probeCount) else Step(c, [])
  }

  /** The acquire hook. The target image is reported when Waited, when Acquired, and
      when Released on a static swapchain; it is then set to Acquired and its index
      pushed at the back of the queue whatever was reported. An index outside the
      (possibly just probed) images is reported and changes nothing: see `AcquireAsWritten`. */
  function Acquire(c: Chain, isStatic: bool, result: int, index: nat, probeResult: int, probeCount: nat): (s: Step)
    requires InBounds(c)
    ensures InBounds(s.next)
    ensures |c.images| > 0 ==> |s.next.images| == |c.images|
  {
    if !Succeeded(result) then Step(c, [])
    else
      var sized := SizedForAcquire(c, isStatic, probeResult, probeCount);
      var images := sized.next.images;
      if index >= |images| then Step(sized.next, sized.reported + [IndexOutOfBounds(index)])
      else
        Step(Chain(images[index := Acquired], sized.next.queue + [index]),
             sized.reported + TargetReports(images[index], index, isStatic))
  }

  /** What acquiring image `index` in `state` reports: Waited, Acquired, and Released on
      a static swapchain, in the source's order. */
  function TargetReports(state: ImageState, index: nat, isStatic: bool): seq<Violation> {
    (if state == Waited then [AcquiredWhileWaited(index)] else [])
    + (if state == Acquired then [AcquiredWhileAcquired(index)] else [])
    + (if state == Released && isStatic then [StaticReacquired(index)] else [])
  }

  /** The acquire hook as the source has it: the out-of-range check runs only when no
      probe did, and either way `imageStates[*index]` is then subscripted with no guard,
      which is undefined behaviour (`None`) when the index is out of range. */
  function AcquireAsWritten(c: Chain, isStatic: bool, result: int, index: nat, probeResult: int, probeCount: nat): Option<Step>
    requires InBounds(c)
  {
    if Succeeded(result) && index >= |SizedForAcquire(c, isStatic, probeResult, probeCount).next.images| then None
    else Some(Acquire(c, isStatic, result, index, probeResult, probeCount))
  }

  /** Two inputs for which the code as written subscripts out of range: a runtime that
      returns index 3 for a three-image swapchain, and a probe that reports count 0. */
  lemma AcquireAsWrittenUndefined()
    ensures AcquireAsWritten(Chain([Created, Created, Created], []), false, XR_SUCCESS, 3, XR_SUCCESS, 0) == None
    ensures Acquire(Chain([Created, Created, Created], []), false, XR_SUCCESS, 3, XR_SUCCESS, 0)
              == Step(Chain([Created, Created, Created], []), [IndexOutOfBounds(3)])
    ensures AcquireAsWritten(Chain([], []), false, XR_SUCCESS, 0, XR_SUCCESS, 0) == None
    ensures Acquire(Chain([], []), false, XR_SUCCESS, 0, XR_SUCCESS, 0)
              == Step(Chain([], []), [EmptyImageCount, IndexOutOfBounds(0)])
  {
    assert seq(0, _ => Created) == [];
  }

  /** Wherever the code as written is defined, the corrected hook does the same. */
  lemma AcquireAsWrittenAgrees(c: Chain, isStatic: bool, result: int, index: nat, probeResult: int, probeCount: nat)
    requires InBounds(c)
    ensures (AcquireAsWritten(c, isStatic, result, index, probeResult, probeCount).Some?)
              <==> (!Succeeded(result) || index < |SizedForAcquire(c, isStatic, probeResult, probeCount).next.images|)
    ensures AcquireAsWritten(c, isStatic, result, index, probeResult, probeCount).Some? ==>
              AcquireAsWritten(c, isStatic, result, index, probeResult, probeCount).value
                == Acquire(c, isStatic, result, index, probeResult, probeCount)
  {
  }

  /** Acquire of an in-range index on a sized swapchain: the image becomes Acquired and
      is queued at the back even when a report is made; each bad state is reported, and
      nothing is reported exactly when the image was Created or (non-static) Released. */
  lemma AcquireEffect(c: Chain, isStatic: bool, result: int, index: nat, probeResult: int, probeCount: nat)
    requires InBounds(c) && Succeeded(result) && 0 < |c.images| && index < |c.images|
    ensures Acquire(c, isStatic, result, index, probeResult, probeCount).next
              == Chain(c.images[index := Acquired], c.queue + [index])
    ensures c.images[index] == Waited ==> AcquiredWhileWaited(index) in Acquire(c, isStatic, result, index, probeResult, probeCount).reported
    ensures c.images[index] == Acquired ==> AcquiredWhileAcquired(index) in Acquire(c, isStatic, result, index, probeResult, probeCount).reported
    ensures c.images[index] == Released && isStatic ==> StaticReacquired(index) in Acquire(c, isStatic, result, index, probeResult, probeCount).reported
    ensures (Acquire(c, isStatic, result, index, probeResult, probeCount).reported == [])
              <==> (c.images[index] == Created || (c.images[index] == Released && !isStatic))
  {
  }

  /** Acquire of an out-of-range index on a sized swapchain is reported and changes nothing. */
  lemma AcquireOutOfBounds(c: Chain, isStatic: bool, result: int, index: nat, probeResult: int, probeCount: nat)
    requires InBounds(c) && Succeeded(result) && 0 < |c.images| <= index
    ensures Acquire(c, isStatic, result, index, probeResult, probeCount) == Step(c, [IndexOutOfBounds(index)])
  {
  }

  /** Acquire before any enumerate probes the count first; a successful probe on a
      swapchain that has never been enumerated raises no report by itself. */
  lemma AcquireProbes(c: Chain, isStatic: bool, result: int, index: nat, probeResult: int, probeCount: nat)
    requires InBounds(c) && Succeeded(result) && |c.images| == 0
    ensures Succeeded(probeResult) && index < probeCount ==>
              Acquire(c, isStatic, result, index, probeResult, probeCount).next
                == Chain(seq(probeCount, i => if i == index then Acquired else Created), [index])
    ensures Succeeded(probeResult) && index < probeCount ==>
              (Acquire(c, isStatic, result, index, probeResult, probeCount).reported == [] <==> !isStatic || probeCount == 1)
    ensures !Succeeded(probeResult) ==>
              Acquire(c, isStatic, result, index, probeResult, probeCount)
                == Step(c, [ProbeFailed(probeResult), IndexOutOfBounds(index)])
  {
    QueueNeedsImages(c);
    if Succeeded(probeResult) && index < probeCount {
      var s := Acquire(c, isStatic, result, index, probeResult, probeCount);
      assert s.next.images == seq(probeCount, i => if i == index then Acquired else Created);
    }
  }

  // ---------------------------------------------------------------------------
  // xrWaitSwapchainImage
  // ---------------------------------------------------------------------------

  /** The wait hook. `elapsed` is the measured duration of the runtime call and
      `timeout` the requested one (both XrDuration nanoseconds). */
  function Wait(c: Chain, result: int, elapsed: int, timeout: int): (s: Step)
    requires InBounds(c)
    ensures InBounds(s.next)
    ensures |s.next.images| == |c.images|
  {
    if result == XR_TIMEOUT_EXPIRED then
      Step(c, if elapsed < timeout then [WaitedEarly(elapsed, timeout)] else [])
    else if result == XR_SUCCESS then
      if |c.queue| == 0 then Step(c, [WaitWithoutAcquire])
      else
        var i := c.queue[0];
        Step(Chain(c.images[i := Waited], c.queue),
             if c.images[i] != Acquired then [WaitWrongState(i, c.images[i])] else [])
    else Step(c, [])
  }

  /** Wait by result: a timeout changes nothing and is reported exactly when it came
      early; a success marks the queue front Waited, leaves the queue alone and is
      reported exactly when that image was not Acquired; a success with an empty queue
      is reported and changes nothing; any other result does nothing. */
  lemma WaitEffect(c: Chain, result: int, elapsed: int, timeout: int)
    requires InBounds(c)
    ensures result == XR_TIMEOUT_EXPIRED ==> Wait(c, result, elapsed, timeout).next == c
    ensures result == XR_TIMEOUT_EXPIRED ==> (Wait(c, result, elapsed, timeout).reported != [] <==> elapsed < timeout)
    ensures result == XR_SUCCESS && |c.queue| > 0 ==>
              Wait(c, result, elapsed, timeout).next == Chain(c.images[c.queue[0] := Waited], c.queue)
    ensures result == XR_SUCCESS && |c.queue| > 0 ==>
              (Wait(c, result, elapsed, timeout).reported == [] <==> c.images[c.queue[0]] == Acquired)
    ensures result == XR_SUCCESS && |c.queue| == 0 ==> Wait(c, result, elapsed, timeout) == Step(c, [WaitWithoutAcquire])
    ensures result != XR_SUCCESS && result != XR_TIMEOUT_EXPIRED ==> Wait(c, result, elapsed, timeout) == Step(c, [])
  {
  }

  // ---------------------------------------------------------------------------
  // xrReleaseSwapchainImage
  // ---------------------------------------------------------------------------

  /** The release hook: the queue front is reported unless Waited, set to Released and
      popped; an empty queue is reported. */
  function Release(c: Chain, result: int): (s: Step)
    requires InBounds(c)
    ensures InBounds(s.next)
    ensures |s.next.images| == |c.images|
  {
    if !Succeeded(result) then Step(c, [])
    else if |c.queue| == 0 then Step(c, [ReleaseWithoutAcquire])
    else
      var i := c.queue[0];
      Step(Chain(c.images[i := Released], c.queue[1..]),
           if c.images[i] != Waited then [ReleaseWrongState(i, c.images[i])] else [])
  }

  /** A successful release pops exactly the front, releases exactly that image and
      touches no other; with an empty queue it is reported and changes nothing. */
  lemma ReleaseEffect(c: Chain, result: int)
    requires InBounds(c) && Succeeded(result)
    ensures |c.queue| == 0 ==> Release(c, result) == Step(c, [ReleaseWithoutAcquire])
    ensures |c.queue| > 0 ==> Release(c, result).next.queue == c.queue[1..]
    ensures |c.queue| > 0 ==> Release(c, result).next.images[c.queue[0]] == Released
    ensures |c.queue| > 0 ==> forall j :: 0 <= j < |c.images| && j != c.queue[0] ==>
              Release(c, result).next.images[j] == c.images[j]
    ensures |c.queue| > 0 ==> (Release(c, result).reported == [] <==> c.images[c.queue[0]] == Waited)
  {
  }

  // ---------------------------------------------------------------------------
  // Sequences of hook calls
  // ---------------------------------------------------------------------------

  /** One intercepted call with the runtime's answer to it. */
  datatype Call =
    | EnumerateCall(result: int, countOutput: Option<nat>)
    | AcquireCall(result: int, index: nat, probeResult: int, probeCount: nat)
    | WaitCall(result: int, elapsed: int, timeout: int)
    | ReleaseCall(result: int)

  function Next(c: Chain, isStatic: bool, call: Call): (s: Step)
    requires InBounds(c)
    ensures InBounds(s.next)
  {
    match call
    case EnumerateCall(result, countOutput) => Enumerate(c, isStatic, result, countOutput)
    case AcquireCall(result, index, probeResult, probeCount) => Acquire(c, isStatic, result, index, probeResult, probeCount)
    case WaitCall(result, elapsed, timeout) => Wait(c, result, elapsed, timeout)
    case ReleaseCall(result) => Release(c, result)
  }

  /** The state after a sequence of calls and all reports made on the way. */
  function Run(c: Chain, isStatic: bool, calls: seq<Call>): (s: Step)
    requires InBounds(c)
    ensures InBounds(s.next)
    decreases |calls|
  {
    if calls == [] then Step(c, [])
    else
      var first := Next(c, isStatic, calls[0]);
      var rest := Run(first.next, isStatic, calls[1..]);
      Step(rest.next, first.reported + rest.reported)
  }

  /** Once `imageStates` is non-empty its size never changes, whatever the calls. */
  lemma {:induction false} RunImageCountFixed(c: Chain, isStatic: bool, calls: seq<Call>)
    requires InBounds(c) && |c.images| > 0
    ensures |Run(c, isStatic, calls).next.images| == |c.images|
    decreases |calls|
  {
    if calls != [] {
      var first := Next(c, isStatic, calls[0]);
      assert |first.next.images| == |c.images|;
      RunImageCountFixed(first.next, isStatic, calls[1..]);
    }
  }

  /** The lifecycle edges: Created -> Acquired -> Waited -> Released -> Acquired ...,
      the last one only on a non-static swapchain. */
  predicate Edge(before: ImageState, after: ImageState, isStatic: bool) {
    || before == after
    || (before == Created && after == Acquired)
    || (before == Acquired && after == Waited)
    || (before == Waited && after == Released)
    || (before == Released && after == Acquired && !isStatic)
  }

  /** A call that reports nothing moves at most one image, and along a lifecycle edge;
      so every skip or reordering of the lifecycle is reported. */
  lemma CleanStepFollowsLifecycle(c: Chain, isStatic: bool, call: Call)
    requires InBounds(c)
    requires Next(c, isStatic, call).reported == []
    ensures |c.images| > 0 ==> |Next(c, isStatic, call).next.images| == |c.images|
    ensures forall i :: 0 <= i < |c.images| ==> Edge(c.images[i], Next(c, isStatic, call).next.images[i], isStatic)
    ensures forall i, j ::
              (0 <= i < |c.images| && 0 <= j < |c.images|
               && c.images[i] != Next(c, isStatic, call).next.images[i]
               && c.images[j] != Next(c, isStatic, call).next.images[j]) ==> i == j
  {
    var s := Next(c, isStatic, call);
    match call
    case EnumerateCall(result, countOutput) =>
    case AcquireCall(result, index, probeResult, probeCount) =>
      if Succeeded(result) && |c.images| > 0 && index < |c.images| {
        AcquireEffect(c, isStatic, result, index, probeResult, probeCount);
      }
    case WaitCall(result, elapsed, timeout) =>
    case ReleaseCall(result) =>
  }

  /** The layer's view of a well-behaved swapchain: queued indices are distinct and in
      range, every queued image is Acquired except that the front may be Waited, every
      Acquired or Waited image is queued, and a static swapchain has at most one image. */
  ghost predicate Consistent(c: Chain, isStatic: bool) {
    && InBounds(c)
    && (forall j, k :: 0 <= j < k < |c.queue| ==> c.queue[j] != c.queue[k])
    && (forall k :: 0 < k < |c.queue| ==> c.images[c.queue[k]] == Acquired)
    && (|c.queue| > 0 ==> c.images[c.queue[0]] == Acquired || c.images[c.queue[0]] == Waited)
    && (forall i :: 0 <= i < |c.images| && c.images[i] in {Acquired, Waited} ==> i in c.queue)
    && (isStatic ==> |c.images| <= 1)
  }

  /** Acquiring a Created or Released image of a consistent swapchain keeps it consistent. */
  lemma AcquireTargetConsistent(c: Chain, isStatic: bool, index: nat)
    requires Consistent(c, isStatic) && index < |c.images|
    requires c.images[index] == Created || c.images[index] == Released
    ensures Consistent(Chain(c.images[index := Acquired], c.queue + [index]), isStatic)
  {
    var q := c.queue + [index];
    var imgs := c.images[index := Acquired];
    assert forall k :: 0 <= k < |c.queue| ==> c.queue[k] != index by {
      forall k | 0 <= k < |c.queue| ensures c.queue[k] != index {
        assert c.images[c.queue[k]] == Acquired || c.images[c.queue[k]] == Waited;
      }
    }
    assert forall j, k :: 0 <= j < k < |q| ==> q[j] != q[k] by {
      forall j, k | 0 <= j < k < |q| ensures q[j] != q[k] {
        if k == |q| - 1 {
          assert q[j] == c.queue[j];
        }
      }
    }
    assert forall i :: 0 <= i < |imgs| && imgs[i] in {Acquired, Waited} ==> i in q by {
      forall i | 0 <= i < |imgs| && imgs[i] in {Acquired, Waited} ensures i in q {
        if i == index {
          assert q[|q| - 1] == i;
        } else {
          assert i in c.queue;
          var k :| 0 <= k < |c.queue| && c.queue[k] == i;
          assert q[k] == i;
        }
      }
    }
  }

  /** The probe (when it runs without report) keeps a consistent swapchain consistent. */
  lemma SizedConsistent(c: Chain, isStatic: bool, probeResult: int, probeCount: nat)
    requires Consistent(c, isStatic)
    requires SizedForAcquire(c, isStatic, probeResult, probeCount).reported == []
    ensures Consistent(SizedForAcquire(c, isStatic, probeResult, probeCount).next, isStatic)
  {
    if |c.images| == 0 {
      QueueNeedsImages(c);
      var e := Enumerate(c, isStatic, probeResult, Some(probeCount));
      assert e.reported == [] && Succeeded(probeResult);
      EnumerateSizing(c, isStatic, probeCount);
      FreshConsistent(probeCount, isStatic);
    }
  }

  /** Freshly sized images with an empty queue are consistent, on a static swapchain
      when there is at most one. */
  lemma FreshConsistent(count: nat, isStatic: bool)
    requires isStatic ==> count <= 1
    ensures Consistent(Chain(seq(count, _ => Created), []), isStatic)
  {
  }

  lemma {:induction false} CleanAcquireConsistent(c: Chain, isStatic: bool, result: int, index: nat, probeResult: int, probeCount: nat)
    requires Consistent(c, isStatic)
    requires Acquire(c, isStatic, result, index, probeResult, probeCount).reported == []
    ensures Consistent(Acquire(c, isStatic, result, index, probeResult, probeCount).next, isStatic)
  {
    if Succeeded(result) {
      var sized := SizedForAcquire(c, isStatic, probeResult, probeCount);
      AcquireClean(c, isStatic, result, index, probeResult, probeCount);
      SizedConsistent(c, isStatic, probeResult, probeCount);
      AcquireTargetConsistent(sized.next, isStatic, index);
    }
  }

  /** An acquire that reports nothing ran a clean probe, hit an image in range that was
      Created or Released, and acquired it. */
  lemma AcquireClean(c: Chain, isStatic: bool, result: int, index: nat, probeResult: int, probeCount: nat)
    requires InBounds(c) && Succeeded(result)
    requires Acquire(c, isStatic, result, index, probeResult, probeCount).reported == []
    ensures var sized := SizedForAcquire(c, isStatic, probeResult, probeCount);
            && sized.reported == []
            && index < |sized.next.images|
            && (sized.next.images[index] == Created || sized.next.images[index] == Released)
            && Acquire(c, isStatic, result, index, probeResult, probeCount).next
               == Chain(sized.next.images[index := Acquired], sized.next.queue + [index])
  {
    var sized := SizedForAcquire(c, isStatic, probeResult, probeCount);
    var reported := Acquire(c, isStatic, result, index, probeResult, probeCount).reported;
    if index >= |sized.next.images| {
      assert false;
    } else {
      assert reported[..|sized.reported|] == sized.reported;
    }
  }

  lemma {:induction false} CleanWaitConsistent(c: Chain, isStatic: bool, result: int, elapsed: int, timeout: int)
    requires Consistent(c, isStatic)
    requires Wait(c, result, elapsed, timeout).reported == []
    ensures Consistent(Wait(c, result, elapsed, timeout).next, isStatic)
  {
    if result != XR_TIMEOUT_EXPIRED && result == XR_SUCCESS {
      var f := c.queue[0];
      var imgs := c.images[f := Waited];
      assert Wait(c, result, elapsed, timeout).next == Chain(imgs, c.queue);
      assert forall k :: 0 < k < |c.queue| ==> c.queue[k] != f;
      assert forall i :: 0 <= i < |imgs| && imgs[i] in {Acquired, Waited} ==> i in c.queue by {
        forall i | 0 <= i < |imgs| && imgs[i] in {Acquired, Waited} ensures i in c.queue {
          if i == f {
            assert c.queue[0] == i;
          }
        }
      }
    }
  }

  lemma {:induction false} CleanReleaseConsistent(c: Chain, isStatic: bool, result: int)
    requires Consistent(c, isStatic)
    requires Release(c, result).reported == []
    ensures Consistent(Release(c, result).next, isStatic)
  {
    if Succeeded(result) {
      var f := c.queue[0];
      var imgs := c.images[f := Released];
      var q := c.queue[1..];
      assert Release(c, result).next == Chain(imgs, q);
      assert forall k :: 0 <= k < |q| ==> q[k] == c.queue[k + 1];
      assert forall k :: 0 <= k < |q| ==> q[k] != f;
      assert forall j, k :: 0 <= j < k < |q| ==> q[j] != q[k];
      assert forall k :: 0 <= k < |q| ==> imgs[q[k]] == Acquired;
      assert forall i :: 0 <= i < |imgs| && imgs[i] in {Acquired, Waited} ==> i in q by {
        forall i | 0 <= i < |imgs| && imgs[i] in {Acquired, Waited} ensures i in q {
          assert i != f;
          assert i in c.queue;
          var k :| 0 <= k < |c.queue| && c.queue[k] == i;
          assert k != 0;
          assert q[k - 1] == i;
        }
      }
    }
  }

  /** A call that reports nothing keeps a consistent swapchain consistent. */
  lemma {:induction false} CleanStepConsistent(c: Chain, isStatic: bool, call: Call)
    requires Consistent(c, isStatic)
    requires Next(c, isStatic, call).reported == []
    ensures Consistent(Next(c, isStatic, call).next, isStatic)
  {
    match call
    case EnumerateCall(result, countOutput) =>
      QueueNeedsImages(c);
    case AcquireCall(result, index, probeResult, probeCount) =>
      CleanAcquireConsistent(c, isStatic, result, index, probeResult, probeCount);
    case WaitCall(result, elapsed, timeout) =>
      CleanWaitConsistent(c, isStatic, result, elapsed, timeout);
    case ReleaseCall(result) =>
      CleanReleaseConsistent(c, isStatic, result);
  }

  /** While no violation has been reported the swapchain stays consistent: the queued
      indices are distinct and in range and only the front may be Waited. */
  lemma {:induction false} CleanRunConsistent(c: Chain, isStatic: bool, calls: seq<Call>)
    requires Consistent(c, isStatic)
    requires Run(c, isStatic, calls).reported == []
    ensures Consistent(Run(c, isStatic, calls).next, isStatic)
    decreases |calls|
  {
    if calls != [] {
      var first := Next(c, isStatic, calls[0]);
      CleanStepConsistent(c, isStatic, calls[0]);
      CleanRunConsistent(first.next, isStatic, calls[1..]);
    }
  }

  /** The scenario of a three-image swapchain acquired before any enumerate: image 0
      goes Created -> Acquired -> Waited -> Released without reports, and a second
      release is reported. */
  lemma ThreeImageCycle()
    ensures Run(Chain([], []), false,
                [AcquireCall(XR_SUCCESS, 0, XR_SUCCESS, 3), WaitCall(XR_SUCCESS, 0, 0), ReleaseCall(XR_SUCCESS)])
              == Step(Chain([Released, Created, Created], []), [])
    ensures Release(Chain([Released, Created, Created], []), XR_SUCCESS).reported == [ReleaseWithoutAcquire]
  {
    var c1 := Chain([Acquired, Created, Created], [0]);
    var c2 := Chain([Waited, Created, Created], [0]);
    var c3 := Chain([Released, Created, Created], []);
    FirstAcquireOfThree();
    assert Wait(c1, XR_SUCCESS, 0, 0) == Step(c2, []);
    assert Release(c2, XR_SUCCESS) == Step(c3, []);
    var calls := [AcquireCall(XR_SUCCESS, 0, XR_SUCCESS, 3), WaitCall(XR_SUCCESS, 0, 0), ReleaseCall(XR_SUCCESS)];
    RunSingle(c2, false, calls[2]);
    assert calls[1..][1..] == [calls[2]];
    assert Run(c2, false, calls[1..][1..]) == Step(c3, []);
    assert Run(c1, false, calls[1..]) == Step(c3, []);
  }

  lemma FirstAcquireOfThree()
    ensures Acquire(Chain([], []), false, XR_SUCCESS, 0, XR_SUCCESS, 3)
              == Step(Chain([Acquired, Created, Created], [0]), [])
  {
    assert seq(3, _ => Created) == [Created, Created, Created];
  }

  lemma RunSingle(c: Chain, isStatic: bool, call: Call)
    requires InBounds(c)
    ensures Run(c, isStatic, [call]) == Next(c, isStatic, call)
  {
    assert [call][1..] == [];
  }

  /** A static swapchain's released image acquired again is reported; the code then
      marks it Acquired (it does not stay Released). */
  lemma StaticReacquireReported(result: int)
    requires Succeeded(result)
    ensures Acquire(Chain([Released], []), true, result, 0, XR_SUCCESS, 1)
              == Step(Chain([Acquired], [0]), [StaticReacquired(0)])
  {
  }

  // ---------------------------------------------------------------------------
  // The per-swapchain state the layer mutates
  // ---------------------------------------------------------------------------

  /** CustomSwapchainState: the image states, the FIFO of acquired indices and the
      static flag, plus a ghost log of everything the hooks reported. */
  class SwapchainState {
    const isStatic: bool
    var imageStates: seq<ImageState>
    var acquiredSwapchains: seq<nat>
    ghost var reported: seq<Violation>

    function State(): Chain
      reads this
    {
      Chain(imageStates, acquiredSwapchains)
    }

    ghost predicate Valid()
      reads this
    {
      InBounds(State())
    }

    constructor (isStatic: bool)
      ensures Valid()
      ensures this.isStatic == isStatic && State() == Chain([], []) && reported == []
    {
      this.isStatic := isStatic;
      imageStates := [];
      acquiredSwapchains := [];
      reported := [];
    }

    /** The xrEnumerateSwapchainImages hook; `countOutput` is None for a null count
        pointer. The image array only feeds the graphics validator. */
    method EnumerateSwapchainImages(result: int, countOutput: Option<nat>) returns (r: int)
      requires Valid()
      modifies this
      ensures Valid()
      ensures r == result
      ensures State() == Enumerate(old(State()), isStatic, result, countOutput).next
      ensures reported == old(reported) + Enumerate(old(State()), isStatic, result, countOutput).reported
    {
      r := result;
      if Succeeded(result) && countOutput.Some? {
        var count := countOutput.value;
        if count == 0 {
          reported := reported + [EmptyImageCount];
        }
        if count != 1 && isStatic {
          reported := reported + [StaticImageCount(count)];
        }
        if |imageStates| == 0 {
          QueueNeedsImages(State());
          imageStates := seq(count, _ => Created);
        }
        if |imageStates| != count {
          reported := reported + [ImageCountChanged(count, |imageStates|)];
        }
      }
    }

    /** The xrAcquireSwapchainImage hook; `index` is what the runtime wrote, and
        `probeResult`/`probeCount` the runtime's answer to the internal enumerate. */
    method AcquireSwapchainImage(result: int, index: nat, probeResult: int, probeCount: nat) returns (r: int)
      requires Valid()
      modifies this
      ensures Valid()
      ensures r == result
      ensures State() == Acquire(old(State()), isStatic, result, index, probeResult, probeCount).next
      ensures reported == old(reported) + Acquire(old(State()), isStatic, result, index, probeResult, probeCount).reported
    {
      r := result;
      if Succeeded(result) {
        SizeForAcquire(probeResult, probeCount);
        if index >= |imageStates| {
          reported := reported + [IndexOutOfBounds(index)];
        } else {
          AcquireTarget(index);
        }
      }
    }

    /** The start of the acquire hook: with no image states yet, enumerate them first,
        reporting a failure of that enumerate. */
    method SizeForAcquire(probeResult: int, probeCount: nat)
      requires Valid()
      modifies this
      ensures Valid()
      ensures State() == SizedForAcquire(old(State()), isStatic, probeResult, probeCount).next
      ensures reported == old(reported) + SizedForAcquire(old(State()), isStatic, probeResult, probeCount).reported
    {
      if |imageStates| == 0 {
        var enumResult := EnumerateSwapchainImages(probeResult, Some(probeCount));
        if !Succeeded(enumResult) {
          reported := reported + [ProbeFailed(enumResult)];
        }
      }
    }

    /** The in-range part of the acquire hook: report the target's state, then mark it
        Acquired and queue it. */
    method AcquireTarget(index: nat)
      requires Valid() && index < |imageStates|
      modifies this
      ensures Valid()
      ensures State() == Chain(old(imageStates)[index := Acquired], old(acquiredSwapchains) + [index])
      ensures reported == old(reported) + TargetReports(old(imageStates)[index], index, isStatic)
    {
      var state := imageStates[index];
      if state == Waited {
        reported := reported + [AcquiredWhileWaited(index)];
      }
      if state == Acquired {
        reported := reported + [AcquiredWhileAcquired(index)];
      }
      if state == Released && isStatic {
        reported := reported + [StaticReacquired(index)];
      }
      imageStates := imageStates[index := Acquired];
      acquiredSwapchains := acquiredSwapchains + [index];
    }

    /** The xrWaitSwapchainImage hook; `elapsed` is the measured duration of the
        runtime call. */
    method WaitSwapchainImage(result: int, elapsed: int, timeout: int) returns (r: int)
      requires Valid()
      modifies this
      ensures Valid()
      ensures r == result
      ensures State() == Wait(old(State()), result, elapsed, timeout).next
      ensures reported == old(reported) + Wait(old(State()), result, elapsed, timeout).reported
    {
      r := result;
      if result == XR_TIMEOUT_EXPIRED {
        if elapsed < timeout {
          reported := reported + [WaitedEarly(elapsed, timeout)];
        }
      } else if result == XR_SUCCESS {
        if |acquiredSwapchains| > 0 {
          var waitIndex := acquiredSwapchains[0];
          var state := imageStates[waitIndex];
          if state != Acquired {
            reported := reported + [WaitWrongState(waitIndex, state)];
          }
          imageStates := imageStates[waitIndex := Waited];
        } else {
          reported := reported + [WaitWithoutAcquire];
        }
      }
    }

    /** The xrReleaseSwapchainImage hook. */
    method ReleaseSwapchainImage(result: int) returns (r: int)
      requires Valid()
      modifies this
      ensures Valid()
      ensures r == result
      ensures State() == Release(old(State()), result).next
      ensures reported == old(reported) + Release(old(State()), result).reported
    {
      r := result;
      if Succeeded(result) {
        if |acquiredSwapchains| > 0 {
          var waitIndex := acquiredSwapchains[0];
          var state := imageStates[waitIndex];
          if state != Waited {
            reported := reported + [ReleaseWrongState(waitIndex, state)];
          }
          imageStates := imageStates[waitIndex := Released];
          acquiredSwapchains := acquiredSwapchains[1..];
        } else {
          reported := reported + [ReleaseWithoutAcquire];
        }
      }
    }
  }

  /** The xrCreateSwapchain hook: on success the new handle gets a fresh state, static
      when the create flags carry the static-image bit. */
  method CreateSwapchain(result: int, createFlags: bv64) returns (r: int, state: SwapchainState?)
    ensures r == result
    ensures state != null <==> Succeeded(result)
    ensures state != null ==> fresh(state) && state.Valid() && state.State() == Chain([], []) && state.reported == []
    ensures state != null ==> (state.isStatic <==> createFlags & XR_SWAPCHAIN_CREATE_STATIC_IMAGE_BIT != 0)
  {
    r := result;
    state := null;
    if Succeeded(result) {
      state := new SwapchainState(createFlags & XR_SWAPCHAIN_CREATE_STATIC_IMAGE_BIT != 0);
    }
  }

  /** A client of the hooks: the three-image scenario driven through the class. */
  method ThreeImageSession() returns (s: SwapchainState)
    ensures fresh(s) && s.State() == Chain([Released, Created, Created], []) && s.reported == [ReleaseWithoutAcquire]
  {
    s := new SwapchainState(false);
    var r := s.AcquireSwapchainImage(XR_SUCCESS, 0, XR_SUCCESS, 3);
    assert seq(3, _ => Created) == [Created, Created, Created];
    r := s.WaitSwapchainImage(XR_SUCCESS, 0, 0);
    r := s.ReleaseSwapchainImage(XR_SUCCESS);
    r := s.ReleaseSwapchainImage(XR_SUCCESS);
  }
}
