/**
 * The thermal-camera script (script/flir_adk.py): the two capture wrappers
 * `wait_for_image` and `retrive_image`, the 100-frame warm-up loop, and the
 * throttled publishing loop of `main`, which forwards one non-empty image in
 * SKIP_FRAME + 1 as a mono8 image followed by a time reference sharing its header.
 *
 * The capture device answers each call; one loop iteration's answers are a `Poll`.
 * `rospy.is_shutdown()` becoming true is the end of the sequence of polls.
 */
module Adk {
  import opened Common

  const SKIP_FRAME: int := 5
  /** Iterations of the warm-up loop before publishing starts. */
  const SAMPLES: nat := 100

  const IMAGE_TOPIC: string := "/flir/adk/image_thermal"
  const TIME_TOPIC: string := "/flir/adk/time_reference"
  const IMAGE_FRAME_ID: string := "flir/adk/image_thermal"
  const IMAGE_ENCODING: string := "mono8"
  const TIME_SOURCE: string := "v4l_driver"

  /** One pixel of the three-channel frame the capture device delivers. */
  datatype Pixel = Pixel(c0: bv8, c1: bv8, c2: bv8)

  type Frame = seq<seq<Pixel>>
  type Mono = seq<seq<bv8>>

  /**
   * The capture device's answers during one iteration: whether `grab()` succeeds,
   * the stream position in milliseconds it reports, the ROS clock right after, and
   * what `retrieve()` returns.
   */
  datatype Poll = Poll(grabbed: bool, positionMs: real, now: U64, retrieved: bool, image: Frame)

  /** `sensor_msgs/Image` and `sensor_msgs/TimeReference`, with the fields the script sets. */
  datatype AdkMsg =
    | ImageMsg(header: Header, encoding: string, pixels: Mono)
    | TimeRefMsg(header: Header, timeRefSeconds: real, source: string)

  /** One `publish` call: the topic of the publisher used and the message. */
  datatype AdkPub = AdkPub(topic: string, msg: AdkMsg)

  // ---------------------------------------------------------------------------
  // The capture wrappers.

  /** `wait_for_image`: the stream position after a successful grab, 0 after a failed one. */
  function WaitForImage(grabbed: bool, positionMs: real): (ms: real)
    ensures grabbed ==> ms == positionMs
    ensures !grabbed ==> ms == 0.0
  {
    if grabbed then positionMs else 0.0
  }

  /** `image[:, :, 0]`: the first channel of every pixel. */
  function FirstChannel(image: Frame): (m: Mono)
    ensures |m| == |image|
    ensures forall r :: 0 <= r < |image| ==> |m[r]| == |image[r]|
    ensures forall r, c :: 0 <= r < |image| && 0 <= c < |image[r]| ==> m[r][c] == image[r][c].c0
  {
    seq(|image|, r requires 0 <= r < |image| =>
      seq(|image[r]|, c requires 0 <= c < |image[r]| => image[r][c].c0))
  }

  /** A frame whose three channels agree everywhere, as the thermal camera's do. */
  ghost predicate Gray(image: Frame) {
    forall r, c :: 0 <= r < |image| && 0 <= c < |image[r]| ==>
      image[r][c].c1 == image[r][c].c0 && image[r][c].c2 == image[r][c].c0
  }

  /** A single-channel image spread over three equal channels. */
  function Spread(m: Mono): (image: Frame) {
    seq(|m|, r requires 0 <= r < |m| =>
      seq(|m[r]|, c requires 0 <= c < |m[r]| => Pixel(m[r][c], m[r][c], m[r][c])))
  }

  /** Keeping only the first channel of a gray frame loses nothing. */
  lemma FirstChannelLossless(image: Frame)
    requires Gray(image)
    ensures Spread(FirstChannel(image)) == image
  {
    var s := Spread(FirstChannel(image));
    forall r | 0 <= r < |image|
      ensures s[r] == image[r]
    {
      assert |s[r]| == |image[r]|;
    }
  }

  lemma FirstChannelOfSpread(m: Mono)
    ensures FirstChannel(Spread(m)) == m
  {
    var f := FirstChannel(Spread(m));
    forall r | 0 <= r < |m|
      ensures f[r] == m[r]
    {
      assert |f[r]| == |m[r]|;
    }
  }

  /** `retrive_image`: `None` after a failed retrieve, otherwise the first channel only. */
  function RetriveImage(success: bool, image: Frame): (r: Option<Mono>)
    ensures r.Some? <==> success
    ensures r.Some? ==> r.value == FirstChannel(image)
  {
    if success then Some(FirstChannel(image)) else None
  }

  // ---------------------------------------------------------------------------
  // One iteration of the publishing loop, as functions of the counter and the poll.

  function TimeStampMs(p: Poll): real {
    WaitForImage(p.grabbed, p.positionMs)
  }

  function Retrieved(p: Poll): Option<Mono> {
    RetriveImage(p.retrieved, p.image)
  }

  /** The image message and the time reference that copies its header. */
  ghost predicate PublishedPair(a: AdkPub, b: AdkPub) {
    && a.topic == IMAGE_TOPIC && a.msg.ImageMsg?
    && a.msg.encoding == IMAGE_ENCODING && a.msg.header.frameId == Literal(IMAGE_FRAME_ID)
    && b.topic == TIME_TOPIC && b.msg.TimeRefMsg?
    && b.msg.header == a.msg.header && b.msg.source == TIME_SOURCE
  }

  /** The counter after one iteration; a missing image leaves it alone. */
  function NextSkip(skip: int, p: Poll): (s: int)
    ensures 0 <= skip <= SKIP_FRAME ==> 0 <= s <= SKIP_FRAME
    ensures Retrieved(p).None? ==> s == skip
    ensures Retrieved(p).Some? && skip == SKIP_FRAME ==> s == 0
    ensures Retrieved(p).Some? && skip != SKIP_FRAME ==> s == skip + 1
  {
    if Retrieved(p).None? then skip
    else if skip == SKIP_FRAME then 0
    else skip + 1
  }

  /** What one iteration publishes. */
  function StepOutput(skip: int, p: Poll): seq<AdkPub> {
    var image := Retrieved(p);
    if image.None? || skip != SKIP_FRAME then []
    else
      var h := Header(p.now, Literal(IMAGE_FRAME_ID));
      [AdkPub(IMAGE_TOPIC, ImageMsg(h, IMAGE_ENCODING, image.value)),
       AdkPub(TIME_TOPIC, TimeRefMsg(h, TimeStampMs(p) / 1000.0, TIME_SOURCE))]
  }

  /**
   * An iteration publishes exactly when an image was retrieved with the counter at
   * SKIP_FRAME, and then publishes the pair: the first channel, stamped with the ROS
   * clock, then the stream position in seconds with the same header.
   */
  lemma StepOutputSpec(skip: int, p: Poll)
    ensures var out := StepOutput(skip, p);
      && (|out| == 0 || |out| == 2)
      && (|out| == 2 <==> p.retrieved && skip == SKIP_FRAME)
      && (|out| == 2 ==>
            && PublishedPair(out[0], out[1])
            && out[0].msg.pixels == FirstChannel(p.image)
            && out[0].msg.header.stamp == p.now
            && out[1].msg.timeRefSeconds == TimeStampMs(p) / 1000.0)
  {
  }

  // ---------------------------------------------------------------------------
  // Replaying a sequence of polls from the counter value s0.

  function SkipAfter(s0: int, polls: seq<Poll>): (s: int)
    ensures 0 <= s0 <= SKIP_FRAME ==> 0 <= s <= SKIP_FRAME
    decreases |polls|
  {
    if polls == [] then s0 else NextSkip(SkipAfter(s0, AllButLast(polls)), Last(polls))
  }

  function TraceAfter(s0: int, polls: seq<Poll>): seq<AdkPub>
    decreases |polls|
  {
    if polls == [] then []
    else TraceAfter(s0, AllButLast(polls)) + StepOutput(SkipAfter(s0, AllButLast(polls)), Last(polls))
  }

  /** The number of iterations that publish. */
  function Publishes(s0: int, polls: seq<Poll>): nat
    decreases |polls|
  {
    if polls == [] then 0
    else Publishes(s0, AllButLast(polls))
         + if Last(polls).retrieved && SkipAfter(s0, AllButLast(polls)) == SKIP_FRAME then 1 else 0
  }

  /** The number of iterations that retrieve an image. */
  function Images(polls: seq<Poll>): nat
    decreases |polls|
  {
    if polls == [] then 0 else Images(AllButLast(polls)) + if Last(polls).retrieved then 1 else 0
  }

  /** Every publication, counted with the counter, accounts for the images seen. */
  lemma {:induction false} PublishIdentity(s0: int, polls: seq<Poll>)
    requires 0 <= s0 <= SKIP_FRAME
    ensures Publishes(s0, polls) * (SKIP_FRAME + 1) + SkipAfter(s0, polls) == Images(polls) + s0
    decreases |polls|
  {
    if polls != [] {
      PublishIdentity(s0, AllButLast(polls));
    }
  }

  /**
   * From the initial counter 0, N images give floor(N / (SKIP_FRAME + 1)) publishes
   * and leave the counter at N mod (SKIP_FRAME + 1).
   */
  lemma PublishCount(polls: seq<Poll>)
    ensures Publishes(0, polls) == Images(polls) / (SKIP_FRAME + 1)
    ensures SkipAfter(0, polls) == Images(polls) % (SKIP_FRAME + 1)
  {
    PublishIdentity(0, polls);
    DivModUnique(Images(polls), SKIP_FRAME + 1, Publishes(0, polls), SkipAfter(0, polls));
  }

  /** Each publishing iteration adds one image and one time reference, in that order. */
  ghost predicate Paired(trace: seq<AdkPub>) {
    && |trace| % 2 == 0
    && forall i :: 0 <= i < |trace| - 1 && i % 2 == 0 ==> PublishedPair(trace[i], trace[i + 1])
  }

  lemma PairedAppend(a: seq<AdkPub>, b: seq<AdkPub>)
    requires Paired(a) && Paired(b)
    ensures Paired(a + b)
  {
    forall i | 0 <= i < |a + b| - 1 && i % 2 == 0
      ensures PublishedPair((a + b)[i], (a + b)[i + 1])
    {
      if i < |a| {
        assert i + 1 < |a|;
        assert (a + b)[i] == a[i] && (a + b)[i + 1] == a[i + 1];
      } else {
        assert (a + b)[i] == b[i - |a|] && (a + b)[i + 1] == b[i - |a| + 1];
      }
    }
  }

  /**
   * The published stream is a sequence of pairs, one per publishing iteration: a
   * mono8 image with frame_id "flir/adk/image_thermal", followed by a time
   * reference with the same header and source "v4l_driver".
   */
  lemma {:induction false} TracePaired(s0: int, polls: seq<Poll>)
    ensures |TraceAfter(s0, polls)| == 2 * Publishes(s0, polls)
    ensures Paired(TraceAfter(s0, polls))
    decreases |polls|
  {
    if polls != [] {
      var init := AllButLast(polls);
      TracePaired(s0, init);
      var out := StepOutput(SkipAfter(s0, init), Last(polls));
      StepOutputSpec(SkipAfter(s0, init), Last(polls));
      assert Paired(out);
      PairedAppend(TraceAfter(s0, init), out);
    }
  }

  /**
   * The first publish is on image SKIP_FRAME + 1: with at most SKIP_FRAME images
   * nothing is published, after exactly SKIP_FRAME the counter is at SKIP_FRAME,
   * and the next poll that retrieves an image publishes.
   */
  lemma FirstPublishOnSixthImage(polls: seq<Poll>, next: Poll)
    requires Images(polls) <= SKIP_FRAME
    ensures TraceAfter(0, polls) == []
    ensures Images(polls) == SKIP_FRAME && next.retrieved ==>
              SkipAfter(0, polls) == SKIP_FRAME && |TraceAfter(0, polls + [next])| == 2
  {
    PublishIdentity(0, polls);
    TracePaired(0, polls);
    if Images(polls) == SKIP_FRAME && next.retrieved {
      assert AllButLast(polls + [next]) == polls;
      StepOutputSpec(SkipAfter(0, polls), next);
    }
  }

  /** A poll without an image changes neither the counter nor the published stream. */
  lemma NoImageChangesNothing(s0: int, polls: seq<Poll>, p: Poll)
    requires !p.retrieved
    ensures SkipAfter(s0, polls + [p]) == SkipAfter(s0, polls)
    ensures TraceAfter(s0, polls + [p]) == TraceAfter(s0, polls)
    ensures Publishes(s0, polls + [p]) == Publishes(s0, polls)
  {
    assert AllButLast(polls + [p]) == polls;
    assert TraceAfter(s0, polls) + [] == TraceAfter(s0, polls);
  }

  // ---------------------------------------------------------------------------
  // The loops of `main`.

  /**
   * The publishing loop, from `skip = 0` to shutdown. It also returns the last
   * value of `prev_time_stamp_ms`, which every iteration sets, even one whose
   * image is missing.
   */
  method PublishLoop(polls: seq<Poll>, prev0: real) returns (trace: seq<AdkPub>, skip: int, prev: real)
    ensures trace == TraceAfter(0, polls)
    ensures skip == SkipAfter(0, polls) && 0 <= skip <= SKIP_FRAME
    ensures prev == if polls == [] then prev0 else TimeStampMs(Last(polls))
  {
    trace := [];
    skip := 0;
    prev := prev0;
    var i := 0;
    while i < |polls|
      invariant 0 <= i <= |polls|
      invariant skip == SkipAfter(0, polls[..i]) && 0 <= skip <= SKIP_FRAME
      invariant trace == TraceAfter(0, polls[..i])
      invariant prev == if i == 0 then prev0 else TimeStampMs(polls[i - 1])
    {
      var p := polls[i];
      assert AllButLast(polls[..i + 1]) == polls[..i];
      i := i + 1;
      var timeStampMs := WaitForImage(p.grabbed, p.positionMs);
      var timeStampSystem := p.now;
      prev := timeStampMs;
      var image := RetriveImage(p.retrieved, p.image);
      if image.None? {
        assert TraceAfter(0, polls[..i]) == trace + [];
        continue;
      }
      if skip == SKIP_FRAME {
        var header := Header(timeStampSystem, Literal(IMAGE_FRAME_ID));
        var imageMsg := ImageMsg(header, IMAGE_ENCODING, image.value);
        trace := trace + [AdkPub(IMAGE_TOPIC, imageMsg)];
        var timeReference := TimeRefMsg(imageMsg.header, timeStampMs / 1000.0, TIME_SOURCE);
        trace := trace + [AdkPub(TIME_TOPIC, timeReference)];
        skip := 0;
      } else {
        assert TraceAfter(0, polls[..i]) == trace + [];
        skip := skip + 1;
      }
    }
    assert polls[..i] == polls;
  }

  /**
   * `main` once the capture device is open or not: -1 when it is not; otherwise
   * SAMPLES warm-up iterations that publish nothing, then the publishing loop on
   * the remaining polls, after which the script returns nothing.
   */
  method AdkMain(isOpened: bool, polls: seq<Poll>) returns (code: Option<int>, trace: seq<AdkPub>)
    requires isOpened ==> |polls| >= SAMPLES
    ensures !isOpened ==> code == Some(-1) && trace == []
    ensures isOpened ==> code == None && trace == TraceAfter(0, polls[SAMPLES..])
  {
    if !isOpened {
      return Some(-1), [];
    }
    var prev: real := 0.0;
    for i := 0 to SAMPLES
      invariant i == 0 ==> prev == 0.0
      invariant i > 0 ==> prev == TimeStampMs(polls[i - 1])
    {
      prev := WaitForImage(polls[i].grabbed, polls[i].positionMs);
      var _ := RetriveImage(polls[i].retrieved, polls[i].image);
    }
    var skip;
    trace, skip, prev := PublishLoop(polls[SAMPLES..], prev);
    code := None;
  }
}
