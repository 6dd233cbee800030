/**
 * One capture worker: the `while(run)` loop of `run_cam` (src/driver.cpp:52-115)
 * with its local counter as a field and the publishers replaced by a trace of
 * `Publication`s that each `publish` call appends to.
 */
module DriverWorker {
  import opened Common
  import opened DriverCycle

  class Worker {
    /** The camera index `idx` the thread was started with. */
    const index: nat
    /** The process-wide `skip` as it was when the thread started. */
    const skip: int
    /** `counter` of run_cam. */
    var counter: int
    /** Every message published so far, in order. */
    var trace: seq<Publication>

    ghost predicate Valid()
      reads this
    {
      InRange(skip, counter)
    }

    /** Thread start: `int counter=skip;`, nothing published yet. */
    constructor (index: nat, skip: int)
      ensures Valid()
      ensures this.index == index && this.skip == skip
      ensures counter == skip && trace == []
    {
      this.index := index;
      this.skip := skip;
      counter := skip;
      trace := [];
    }

    /** One iteration of the loop body, given the outcome of `camera.grab(...)`. */
    method Cycle(grab: Option<Frame>)
      requires Valid()
      modifies this
      ensures Valid()
      ensures counter == NextCounter(skip, old(counter), grab)
      ensures trace == old(trace) + CycleOutput(skip, index, old(counter), grab)
      ensures Decide(skip, old(counter), grab) != Forwarded ==> trace == old(trace)
    {
      match grab
      case None =>
        // failed grab: back off and retry
      case Some(f) =>
        counter := counter + 1;
        if counter <= skip {
          return;
        }
        counter := 0;
        var frameId := FrameId(index);
        if !f.rgb.Empty() {
          var header := Header(f.systemStamp, frameId);
          trace := trace + [Publication(RgbChannel, Image(header, "bgr8", f.rgb))];
        }
        if !f.raw.Empty() {
          var header := Header(f.systemStamp, frameId);
          var encoding;
          if f.raw.kind == CV_8UC3 {
            encoding := "bgr8";
          } else {
            encoding := "mono8";
          }
          trace := trace + [Publication(RawChannel, Image(header, encoding, f.raw))];
        }
        if !f.raw.Empty() || !f.rgb.Empty() {
          var addition := Addition(Header(f.systemStamp, frameId), f.exposure, f.gain);
          trace := trace + [Publication(AdditionChannel, addition)];
          var reference := TimeReference(addition.header, f.deviceStamp, "hardware");
          trace := trace + [Publication(TimeChannel, reference)];
        }
    }

    /** The loop, over the grab outcomes of the iterations that start while `run` is true. */
    method Run(grabs: seq<Option<Frame>>)
      requires Valid()
      modifies this
      ensures Valid()
      ensures counter == CounterAfter(skip, old(counter), grabs)
      ensures trace == old(trace) + TraceOf(skip, index, old(counter), grabs)
    {
      var i := 0;
      while i < |grabs|
        invariant 0 <= i <= |grabs|
        invariant Valid()
        invariant counter == CounterAfter(skip, old(counter), grabs[..i])
        invariant trace == old(trace) + TraceOf(skip, index, old(counter), grabs[..i])
      {
        ReplayStep(skip, index, old(counter), grabs, i);
        Cycle(grabs[i]);
        Assoc(old(trace), TraceOf(skip, index, old(counter), grabs[..i]),
          CycleOutput(skip, index, CounterAfter(skip, old(counter), grabs[..i]), grabs[i]));
        i := i + 1;
      }
      assert grabs[..i] == grabs;
    }
  }
}
