/**
 * The per-frame decision logic of `run_cam` (src/driver.cpp), as pure functions:
 * the throttle counter, the fan-out of one forwarded frame onto the four
 * channels of a camera, and the replay of a whole sequence of grab outcomes.
 * The worker class in DriverWorker is proved against these functions.
 */
module DriverCycle {
  import opened Common

  /** OpenCV's type code for 8-bit, 3-channel matrices: CV_MAKETYPE(CV_8U, 3). */
  const CV_8UC3: int := 16

  /** Template of the frame_id every message of a camera carries. */
  const FRAME_ID_TEMPLATE: string := "flir_blackfly_cam%"

  /** A `cv::Mat` as far as the driver inspects it: its type code and its bytes. */
  datatype Mat = Mat(kind: int, data: seq<bv8>) {
    predicate Empty() { |data| == 0 }
  }

  /** A `double` (exposure time, gain), carried through unchanged as its bit pattern. */
  datatype Float64 = Float64(bits: bv64)

  /** What one successful `camera.grab(...)` call writes into its out-parameters. */
  datatype Frame = Frame(raw: Mat, rgb: Mat, deviceStamp: U64, systemStamp: U64,
                         exposure: Float64, gain: Float64)

  /** The four publishers handed to `run_cam`. */
  datatype Channel = RawChannel | RgbChannel | TimeChannel | AdditionChannel

  /** The three message types: `sensor_msgs/Image`, `ImageAddition`, `sensor_msgs/TimeReference`. */
  datatype Msg =
    | Image(header: Header, encoding: string, image: Mat)
    | Addition(header: Header, exposure: Float64, gain: Float64)
    | TimeReference(header: Header, timeRef: U64, source: string)

  /** One `publish` call: the publisher used and the message. */
  datatype Publication = Publication(channel: Channel, msg: Msg)

  function FrameId(index: nat): Label {
    StrFmt(FRAME_ID_TEMPLATE, index)
  }

  lemma FrameIdInjective(i: nat, j: nat)
    ensures FrameId(i) == FrameId(j) <==> i == j
  {
  }

  /** Position of a channel in the order a cycle publishes on it. */
  function Order(c: Channel): nat {
    match c
    case RgbChannel => 0
    case RawChannel => 1
    case AdditionChannel => 2
    case TimeChannel => 3
  }

  predicate Emits(pubs: seq<Publication>, c: Channel) {
    exists i :: 0 <= i < |pubs| && pubs[i].channel == c
  }

  /** The encoding of the raw image: decided by the buffer's type alone. */
  function RawEncoding(raw: Mat): (e: string)
    ensures e == "bgr8" <==> raw.kind == CV_8UC3
    ensures e == "bgr8" || e == "mono8"
  {
    if raw.kind == CV_8UC3 then "bgr8" else "mono8"
  }

  /** The color image, when there is one (src/driver.cpp:71-78). */
  function ColorPart(h: Header, f: Frame): seq<Publication> {
    if f.rgb.Empty() then [] else [Publication(RgbChannel, Image(h, "bgr8", f.rgb))]
  }

  /** The raw image, when there is one (src/driver.cpp:80-92). */
  function RawPart(h: Header, f: Frame): seq<Publication> {
    if f.raw.Empty() then [] else [Publication(RawChannel, Image(h, RawEncoding(f.raw), f.raw))]
  }

  /** Exposure/gain, then the time reference, when either image exists (src/driver.cpp:94-107). */
  function MetaPart(h: Header, f: Frame): seq<Publication> {
    if f.rgb.Empty() && f.raw.Empty() then []
    else [Publication(AdditionChannel, Addition(h, f.exposure, f.gain)),
          Publication(TimeChannel, TimeReference(h, f.deviceStamp, "hardware"))]
  }

  /** What a forwarded frame publishes, in publishing order (src/driver.cpp:69-107). */
  function FanOut(index: nat, f: Frame): seq<Publication> {
    var h := Header(f.systemStamp, FrameId(index));
    ColorPart(h, f) + RawPart(h, f) + MetaPart(h, f)
  }

  /** At most one message per channel, in the order color, raw, metadata, time reference. */
  lemma FanOutOrder(index: nat, f: Frame)
    ensures var r := FanOut(index, f);
      && |r| <= 4
      && (forall i, j :: 0 <= i < j < |r| ==> Order(r[i].channel) < Order(r[j].channel))
  {
    var h := Header(f.systemStamp, FrameId(index));
    var rgb, raw, meta := ColorPart(h, f), RawPart(h, f), MetaPart(h, f);
    var r := rgb + raw + meta;
    assert forall i :: 0 <= i < |rgb| ==> r[i].channel == RgbChannel;
    assert forall i :: |rgb| <= i < |rgb| + |raw| ==> r[i].channel == RawChannel;
    assert meta != [] ==> r[|rgb| + |raw|].channel == AdditionChannel && r[|rgb| + |raw| + 1].channel == TimeChannel;
  }

  /** One header on every message: the system stamp and the camera's frame_id. */
  lemma FanOutHeaders(index: nat, f: Frame)
    ensures forall p | p in FanOut(index, f) :: p.msg.header == Header(f.systemStamp, FrameId(index))
  {
  }

  /**
   * Color exactly when the rgb image is non-empty, raw exactly when the raw image is,
   * metadata and time reference exactly when either is.
   */
  lemma FanOutEmits(index: nat, f: Frame)
    ensures var r := FanOut(index, f);
      && (Emits(r, RgbChannel) <==> !f.rgb.Empty())
      && (Emits(r, RawChannel) <==> !f.raw.Empty())
      && (Emits(r, AdditionChannel) <==> !f.rgb.Empty() || !f.raw.Empty())
      && (Emits(r, TimeChannel) <==> !f.rgb.Empty() || !f.raw.Empty())
  {
    var h := Header(f.systemStamp, FrameId(index));
    var rgb, raw, meta := ColorPart(h, f), RawPart(h, f), MetaPart(h, f);
    var r := rgb + raw + meta;
    assert !f.rgb.Empty() ==> r[0].channel == RgbChannel;
    assert !f.raw.Empty() ==> r[|rgb|].channel == RawChannel;
    assert meta != [] ==> r[|rgb| + |raw|].channel == AdditionChannel && r[|rgb| + |raw| + 1].channel == TimeChannel;
    assert forall i :: 0 <= i < |r| ==> r[i] in rgb || r[i] in raw || r[i] in meta;
  }

  /**
   * What each channel receives: the rgb image as "bgr8"; the raw image with its
   * CV_8UC3-dependent encoding; exposure and gain; the device stamp with source "hardware".
   */
  lemma FanOutContents(index: nat, f: Frame)
    ensures var r := FanOut(index, f);
      && (forall p | p in r && p.channel == RgbChannel ::
            p.msg.Image? && p.msg.encoding == "bgr8" && p.msg.image == f.rgb)
      && (forall p | p in r && p.channel == RawChannel ::
            p.msg.Image? && p.msg.encoding == RawEncoding(f.raw) && p.msg.image == f.raw)
      && (forall p | p in r && p.channel == AdditionChannel ::
            p.msg.Addition? && p.msg.exposure == f.exposure && p.msg.gain == f.gain)
      && (forall p | p in r && p.channel == TimeChannel ::
            p.msg.TimeReference? && p.msg.timeRef == f.deviceStamp && p.msg.source == "hardware")
  {
  }

  // ---------------------------------------------------------------------------
  // The throttle (src/driver.cpp:53-67).

  /** What an iteration does with its grab outcome. */
  datatype Decision = GrabFailed | Skipped | Forwarded

  function Decide(skip: int, counter: int, grab: Option<Frame>): Decision {
    if grab.None? then GrabFailed
    else if counter + 1 <= skip then Skipped
    else Forwarded
  }

  /**
   * The values the counter holds between iterations. For a non-negative skip this is
   * [0, skip]; a negative skip (the configuration type is a signed int) makes the
   * counter start at skip and be 0 from the first forwarded frame on.
   */
  predicate InRange(skip: int, counter: int) {
    if skip >= 0 then 0 <= counter <= skip else counter == skip || counter == 0
  }

  /** The counter after one iteration. */
  function NextCounter(skip: int, counter: int, grab: Option<Frame>): (c: int)
    ensures InRange(skip, counter) ==> InRange(skip, c)
    ensures grab.None? ==> c == counter
    ensures Decide(skip, counter, grab) == Forwarded ==> c == 0
    ensures Decide(skip, counter, grab) == Skipped ==> c == counter + 1 && c <= skip
  {
    match grab
    case None => counter
    case Some(_) => if counter + 1 <= skip then counter + 1 else 0
  }

  /** The messages one iteration publishes: none unless the frame is forwarded. */
  function CycleOutput(skip: int, index: nat, counter: int, grab: Option<Frame>): seq<Publication> {
    if Decide(skip, counter, grab) == Forwarded then FanOut(index, grab.value) else []
  }

  // ---------------------------------------------------------------------------
  // Replaying a sequence of grab outcomes, from the counter value c0.

  function CounterAfter(skip: int, c0: int, grabs: seq<Option<Frame>>): (c: int)
    ensures InRange(skip, c0) ==> InRange(skip, c)
    decreases |grabs|
  {
    if grabs == [] then c0
    else NextCounter(skip, CounterAfter(skip, c0, AllButLast(grabs)), Last(grabs))
  }

  /** The number of iterations that forward their frame. */
  function ForwardCount(skip: int, c0: int, grabs: seq<Option<Frame>>): nat
    decreases |grabs|
  {
    if grabs == [] then 0
    else ForwardCount(skip, c0, AllButLast(grabs))
         + if Decide(skip, CounterAfter(skip, c0, AllButLast(grabs)), Last(grabs)) == Forwarded then 1 else 0
  }

  /** Everything the iterations publish, in order. */
  function TraceOf(skip: int, index: nat, c0: int, grabs: seq<Option<Frame>>): seq<Publication>
    decreases |grabs|
  {
    if grabs == [] then []
    else TraceOf(skip, index, c0, AllButLast(grabs))
         + CycleOutput(skip, index, CounterAfter(skip, c0, AllButLast(grabs)), Last(grabs))
  }

  /** Replaying one more grab extends the counter and the trace by one cycle. */
  lemma ReplayStep(skip: int, index: nat, c0: int, grabs: seq<Option<Frame>>, i: nat)
    requires i < |grabs|
    ensures CounterAfter(skip, c0, grabs[..i + 1])
      == NextCounter(skip, CounterAfter(skip, c0, grabs[..i]), grabs[i])
    ensures TraceOf(skip, index, c0, grabs[..i + 1])
      == TraceOf(skip, index, c0, grabs[..i]) + CycleOutput(skip, index, CounterAfter(skip, c0, grabs[..i]), grabs[i])
  {
    assert AllButLast(grabs[..i + 1]) == grabs[..i];
  }

  /** The number of successful grabs. */
  function Successes(grabs: seq<Option<Frame>>): nat
    decreases |grabs|
  {
    if grabs == [] then 0
    else Successes(AllButLast(grabs)) + if Last(grabs).Some? then 1 else 0
  }

  /** The successful grabs alone, in order. */
  function SuccessfulGrabs(grabs: seq<Option<Frame>>): seq<Option<Frame>>
    decreases |grabs|
  {
    if grabs == [] then []
    else SuccessfulGrabs(AllButLast(grabs)) + if Last(grabs).Some? then [Last(grabs)] else []
  }

  // ---------------------------------------------------------------------------
  // Properties of the throttle.

  /** Forwards times (skip + 1), plus the counter, account for every success. */
  lemma {:induction false} ForwardIdentity(skip: int, c0: int, grabs: seq<Option<Frame>>)
    requires 0 <= c0 <= skip
    ensures ForwardCount(skip, c0, grabs) * (skip + 1) + CounterAfter(skip, c0, grabs)
            == Successes(grabs) + c0
    decreases |grabs|
  {
    if grabs != [] {
      var init := AllButLast(grabs);
      ForwardIdentity(skip, c0, init);
      var p := ForwardCount(skip, c0, init);
      if Decide(skip, CounterAfter(skip, c0, init), Last(grabs)) == Forwarded {
        assert (p + 1) * (skip + 1) == p * (skip + 1) + (skip + 1);
      }
    }
  }

  /** From a counter c0 in [0, skip], n successful grabs forward (n + c0) / (skip + 1) frames. */
  lemma ForwardCountFormula(skip: int, c0: int, grabs: seq<Option<Frame>>)
    requires 0 <= c0 <= skip
    ensures ForwardCount(skip, c0, grabs) == (Successes(grabs) + c0) / (skip + 1)
  {
    ForwardIdentity(skip, c0, grabs);
    ThrottleArithmetic(Successes(grabs), c0, skip, ForwardCount(skip, c0, grabs), CounterAfter(skip, c0, grabs));
  }

  /** From a counter c0 in [0, skip], n successful grabs leave the counter at (n + c0) % (skip + 1). */
  lemma CounterFormula(skip: int, c0: int, grabs: seq<Option<Frame>>)
    requires 0 <= c0 <= skip
    ensures CounterAfter(skip, c0, grabs) == (Successes(grabs) + c0) % (skip + 1)
  {
    ForwardIdentity(skip, c0, grabs);
    ThrottleArithmetic(Successes(grabs), c0, skip, ForwardCount(skip, c0, grabs), CounterAfter(skip, c0, grabs));
  }

  /** The identity, read as a Euclidean division by skip + 1. */
  lemma ThrottleArithmetic(n: int, c0: int, skip: int, p: int, c: int)
    requires 0 <= c0 <= skip && InRange(skip, c) && p * (skip + 1) + c == n + c0
    ensures p == (n + c0) / (skip + 1) && c == (n + c0) % (skip + 1)
  {
    DivModUnique(n + c0, skip + 1, p, c);
  }

  /**
   * A worker starts its counter at skip: over n successful grabs it forwards
   * ceil(n / (skip + 1)) frames, stated both with division and as the defining
   * inequalities of the ceiling.
   */
  lemma ForwardsCeiling(skip: int, grabs: seq<Option<Frame>>)
    requires skip >= 0
    ensures ForwardCount(skip, skip, grabs) == (Successes(grabs) + skip) / (skip + 1)
    ensures (ForwardCount(skip, skip, grabs) - 1) * (skip + 1) < Successes(grabs)
                <= ForwardCount(skip, skip, grabs) * (skip + 1)
  {
    ForwardIdentity(skip, skip, grabs);
    CeilingArithmetic(Successes(grabs), skip, ForwardCount(skip, skip, grabs), CounterAfter(skip, skip, grabs));
  }

  lemma CeilingArithmetic(n: int, skip: int, p: int, c: int)
    requires 0 <= skip && InRange(skip, c) && p * (skip + 1) + c == n + skip
    ensures p == (n + skip) / (skip + 1)
    ensures (p - 1) * (skip + 1) < n <= p * (skip + 1)
  {
    ThrottleArithmetic(n, skip, skip, p, c);
    assert (p - 1) * (skip + 1) == p * (skip + 1) - (skip + 1);
  }

  /** With a negative skip every successful grab is forwarded. */
  lemma {:induction false} NegativeSkipForwardsAll(skip: int, c0: int, grabs: seq<Option<Frame>>)
    requires skip < 0 && InRange(skip, c0)
    ensures ForwardCount(skip, c0, grabs) == Successes(grabs)
    decreases |grabs|
  {
    if grabs != [] {
      NegativeSkipForwardsAll(skip, c0, AllButLast(grabs));
    }
  }

  /** The very first successful grab of a fresh worker is forwarded, after nothing was published. */
  lemma FirstSuccessForwarded(skip: int, index: nat, grabs: seq<Option<Frame>>, k: nat)
    requires k < |grabs| && grabs[k].Some?
    requires forall j :: 0 <= j < k ==> grabs[j].None?
    ensures TraceOf(skip, index, skip, grabs[..k]) == []
    ensures Decide(skip, CounterAfter(skip, skip, grabs[..k]), grabs[k]) == Forwarded
    ensures TraceOf(skip, index, skip, grabs[..k + 1]) == FanOut(index, grabs[k].value)
  {
    FailuresOnly(skip, index, skip, grabs[..k]);
    assert AllButLast(grabs[..k + 1]) == grabs[..k];
  }

  lemma {:induction false} FailuresOnly(skip: int, index: nat, c0: int, grabs: seq<Option<Frame>>)
    requires forall j :: 0 <= j < |grabs| ==> grabs[j].None?
    ensures CounterAfter(skip, c0, grabs) == c0
    ensures TraceOf(skip, index, c0, grabs) == []
    decreases |grabs|
  {
    if grabs != [] {
      FailuresOnly(skip, index, c0, AllButLast(grabs));
    }
  }

  /**
   * After a forward the counter is 0: the next skip successful grabs publish nothing,
   * and the successful grab after them is forwarded.
   */
  lemma DropsNextSkip(skip: int, index: nat, grabs: seq<Option<Frame>>, next: Frame)
    requires skip >= 0 && Successes(grabs) == skip
    ensures ForwardCount(skip, 0, grabs) == 0
    ensures TraceOf(skip, index, 0, grabs) == []
    ensures Decide(skip, CounterAfter(skip, 0, grabs), Some(next)) == Forwarded
  {
    ForwardCountFormula(skip, 0, grabs);
    CounterFormula(skip, 0, grabs);
    DivModUnique(skip, skip + 1, 0, skip);
    TraceBound(skip, index, 0, grabs);
  }

  /** The counter after a + b is the counter after b, started where a leaves it. */
  lemma {:induction false} CounterSplit(skip: int, c0: int, a: seq<Option<Frame>>, b: seq<Option<Frame>>)
    ensures CounterAfter(skip, c0, a + b) == CounterAfter(skip, CounterAfter(skip, c0, a), b)
    decreases |b|
  {
    if b == [] {
      assert a + b == a;
    } else {
      CounterSplit(skip, c0, a, AllButLast(b));
      assert AllButLast(a + b) == a + AllButLast(b);
      assert Last(a + b) == Last(b);
    }
  }

  /** The trace of a + b is a's trace, then b's trace started where a leaves the counter. */
  lemma {:induction false} ReplaySplit(skip: int, index: nat, c0: int, a: seq<Option<Frame>>, b: seq<Option<Frame>>)
    ensures TraceOf(skip, index, c0, a + b)
         == TraceOf(skip, index, c0, a) + TraceOf(skip, index, CounterAfter(skip, c0, a), b)
    decreases |b|
  {
    if b == [] {
      assert a + b == a;
    } else {
      var ca := CounterAfter(skip, c0, a);
      var front := AllButLast(b);
      ReplaySplit(skip, index, c0, a, front);
      CounterSplit(skip, c0, a, front);
      assert AllButLast(a + b) == a + front;
      assert Last(a + b) == Last(b);
      var step := CycleOutput(skip, index, CounterAfter(skip, ca, front), Last(b));
      assert TraceOf(skip, index, c0, a + b) == TraceOf(skip, index, c0, a + front) + step;
      assert TraceOf(skip, index, ca, b) == TraceOf(skip, index, ca, front) + step;
      Assoc(TraceOf(skip, index, c0, a), TraceOf(skip, index, ca, front), step);
    }
  }

  /**
   * Inside one run: once grab a's last iteration forwards, the next skip successful grabs
   * publish nothing, and the successful grab after them is forwarded.
   */
  lemma DropsAfterForward(skip: int, index: nat, c0: int, a: seq<Option<Frame>>, b: seq<Option<Frame>>, next: Frame)
    requires skip >= 0 && a != [] && Successes(b) == skip
    requires Decide(skip, CounterAfter(skip, c0, AllButLast(a)), Last(a)) == Forwarded
    ensures TraceOf(skip, index, c0, a + b) == TraceOf(skip, index, c0, a)
    ensures Decide(skip, CounterAfter(skip, c0, a + b), Some(next)) == Forwarded
  {
    ReplaySplit(skip, index, c0, a, b);
    CounterSplit(skip, c0, a, b);
    assert CounterAfter(skip, c0, a) == 0;
    DropsNextSkip(skip, index, b, next);
  }

  /** Every message comes from a forwarded frame, and a frame publishes at most four. */
  lemma {:induction false} TraceBound(skip: int, index: nat, c0: int, grabs: seq<Option<Frame>>)
    ensures |TraceOf(skip, index, c0, grabs)| <= 4 * ForwardCount(skip, c0, grabs)
    decreases |grabs|
  {
    if grabs != [] {
      TraceBound(skip, index, c0, AllButLast(grabs));
    }
  }

  /**
   * Frame by frame: iteration k publishes nothing unless it forwards its grab, and a
   * forwarded grab publishes its fan-out, at most four messages.
   */
  lemma PerFrameOutput(skip: int, index: nat, c0: int, grabs: seq<Option<Frame>>, k: nat)
    requires k < |grabs|
    ensures var c := CounterAfter(skip, c0, grabs[..k]);
      Decide(skip, c, grabs[k]) != Forwarded ==>
        TraceOf(skip, index, c0, grabs[..k + 1]) == TraceOf(skip, index, c0, grabs[..k])
    ensures var c := CounterAfter(skip, c0, grabs[..k]);
      Decide(skip, c, grabs[k]) == Forwarded ==>
        && TraceOf(skip, index, c0, grabs[..k + 1]) == TraceOf(skip, index, c0, grabs[..k]) + FanOut(index, grabs[k].value)
        && |FanOut(index, grabs[k].value)| <= 4
  {
    ReplayStep(skip, index, c0, grabs, k);
    if Decide(skip, CounterAfter(skip, c0, grabs[..k]), grabs[k]) == Forwarded {
      FanOutOrder(index, grabs[k].value);
    } else {
      assert TraceOf(skip, index, c0, grabs[..k]) + [] == TraceOf(skip, index, c0, grabs[..k]);
    }
  }

  /** Every message a worker publishes carries its camera's frame_id. */
  lemma {:induction false} TraceFrameIds(skip: int, index: nat, c0: int, grabs: seq<Option<Frame>>)
    ensures forall p | p in TraceOf(skip, index, c0, grabs) :: p.msg.header.frameId == FrameId(index)
    decreases |grabs|
  {
    if grabs != [] {
      TraceFrameIds(skip, index, c0, AllButLast(grabs));
      var c := CounterAfter(skip, c0, AllButLast(grabs));
      var out := CycleOutput(skip, index, c, Last(grabs));
      if Decide(skip, c, Last(grabs)) == Forwarded {
        FanOutHeaders(index, Last(grabs).value);
      }
      assert forall p | p in out :: p.msg.header.frameId == FrameId(index);
      assert TraceOf(skip, index, c0, grabs) == TraceOf(skip, index, c0, AllButLast(grabs)) + out;
    }
  }

  /** Failed grabs are invisible: the run depends only on the successful grabs. */
  lemma {:induction false} FailuresInvisible(skip: int, index: nat, c0: int, grabs: seq<Option<Frame>>)
    ensures CounterAfter(skip, c0, grabs) == CounterAfter(skip, c0, SuccessfulGrabs(grabs))
    ensures TraceOf(skip, index, c0, grabs) == TraceOf(skip, index, c0, SuccessfulGrabs(grabs))
    ensures ForwardCount(skip, c0, grabs) == ForwardCount(skip, c0, SuccessfulGrabs(grabs))
    decreases |grabs|
  {
    if grabs != [] {
      var init := AllButLast(grabs);
      FailuresInvisible(skip, index, c0, init);
      if Last(grabs).Some? {
        var s := SuccessfulGrabs(grabs);
        assert s != [] && AllButLast(s) == SuccessfulGrabs(init) && Last(s) == Last(grabs);
      } else {
        assert SuccessfulGrabs(grabs) == SuccessfulGrabs(init) + [];
        assert SuccessfulGrabs(init) + [] == SuccessfulGrabs(init);
      }
    }
  }
}
