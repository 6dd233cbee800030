# flir_camera_driver — a Dafny model of the capture drivers

The repository publishes camera frames on ROS topics. It has two drivers.

- **`src/driver.cpp`** is the multi-camera driver for the Blackfly cameras. `main` initialises every
  camera, applies the configuration and advertises four publishers per camera. It then runs one
  `run_cam` worker thread per camera until SIGINT, and tears everything down.
  Each worker throttles its successful grabs: the counter starts at `skip`, so the first success
  is forwarded, and after that only every `(skip + 1)`-th success is. A forwarded frame fans out
  into up to four messages (color image, raw image, exposure/gain addition, time reference), all
  sharing one header. A successful grab whose two images are both empty still counts as forwarded:
  it resets the counter and publishes nothing, so the forward counts below are not publish counts.
- **`script/flir_adk.py`** is the single thermal-camera script. After 100 warm-up frames it
  forwards one non-empty image in `SKIP_FRAME + 1 = 6`, starting with the sixth. Each forward is a
  `mono8` image of the first channel, followed by a time reference that shares its header.

The model has five modules.

- `Common` (`common.dfy`): the shared vocabulary, sequence helpers and a small division lemma.
  - `Option`; unsigned 64-bit stamps (`U64`); `Header`.
  - `Label`, the result of `strfmt(template, index)`.
  - `Last` and `AllButLast`, and the associativity of concatenation.
- `DriverCycle` (`driver_cycle.dfy`): the pure specification of one `run_cam` iteration.
  - The throttle decision, the counter update and the fan-out of a forwarded frame.
  - The replay of a whole sequence of grab outcomes (`CounterAfter`, `ForwardCount`, `TraceOf`).
  - Lemmas about counting, phase and frame ids.
- `DriverWorker` (`driver_worker.dfy`): class `Worker`, which holds a worker's `counter` and the
  publications it has made.
  - `Cycle` is one loop iteration, written the way `run_cam` writes it.
  - `Run` is the whole loop.
  - Both are proved against `DriverCycle`.
- `DriverNode` (`driver_node.dfy`): class `Node`, the process statics `run`, `skip` and the four
  topic templates, plus an event trace of everything the process does visibly.
  - Operations: `SigintHandler`, `ApplyConfigs`, default initialisation, worker launch, teardown,
    and `RunMain` composing them.
  - The pure specification `MainEvents`, with lemmas on exit codes, ordering, topics, frame ids
    and the independence of the cameras.
- `Adk` (`adk.dfy`): the script.
  - `WaitForImage` and `RetriveImage`.
  - The per-iteration functions and their replay, with lemmas on counting, the first publish and
    the message pairs.
  - The methods `PublishLoop` (the `while` loop) and `AdkMain` (warm-up loop, then `PublishLoop`).

The device and transport layers are not modelled as code; their answers are inputs.

- **Camera grabs:** a grab's outcome is `Option<Frame>`. `None` is a failed grab; `Some` carries
  the images, the stamps, and exposure and gain.
- **Camera calls:** `default_initialization`, the set of refused settings, and the configuration
  reader's lookups are given as data.
- **Publishing:** `publish` appends a message to a trace.
- **Threads:** they are linearised. Worker `i` runs its whole sequence of grabs right after it is
  spawned, and SIGINT arrives after every worker has been spawned. The workers share `run` and
  `skip`, which they only read; `apply_configs` writes `skip` before any worker is spawned.
  With no camera there is no worker and no join, so `main` does not wait for SIGINT.

## Model

| member | source | states |
|---|---|---|
| Common.StrFmt | src/driver.cpp:69 | `strfmt(template, index)` is determined by, and determines, the template and the index (injective) |
| DriverCycle.FrameIdInjective | src/driver.cpp:69 | two cameras have the same frame_id `flir_blackfly_cam%` formatted with their index only if they are the same camera |
| DriverCycle.RawEncoding | src/driver.cpp:84-89 | the raw image is published as "bgr8" exactly when its type is CV_8UC3, and as "mono8" otherwise |
| DriverCycle.FanOutOrder | src/driver.cpp:69-107 | a forwarded frame publishes at most four messages, at most one per channel, in the order color, raw, addition, time reference |
| DriverCycle.FanOutHeaders | src/driver.cpp:69-107 | every message of a forwarded frame has the header (system stamp, camera frame_id) |
| DriverCycle.FanOutEmits | src/driver.cpp:72-107 | color is sent iff the rgb image is non-empty, raw iff the raw image is non-empty, addition and time reference iff either image is non-empty |
| DriverCycle.FanOutContents | src/driver.cpp:72-107 | color carries the rgb image as "bgr8", raw carries the raw image with the CV_8UC3-dependent encoding, the addition carries exposure and gain, the time reference the device stamp with source "hardware" |
| DriverCycle.NextCounter | src/driver.cpp:60-67 | a failed grab leaves the counter alone. A skipped success increments it and it stays `<= skip`. A forwarded one resets it to 0. The counter's range (InRange: `[0, skip]` for non-negative skip) is preserved |
| DriverCycle.CounterAfter | src/driver.cpp:53-67 | over any sequence of grabs the counter stays in range |
| DriverCycle.ForwardIdentity | src/driver.cpp:53-67 | from a counter `c0` in `[0, skip]`: forwards × (skip+1) + final counter == successes + c0 |
| DriverCycle.ForwardCountFormula | src/driver.cpp:53-67 | starting from `c0` in `[0, skip]`, n successful grabs forward exactly `(n + c0) / (skip+1)` frames. A forward whose two images are empty publishes nothing, so this counts forwards, not publishes |
| DriverCycle.CounterFormula | src/driver.cpp:53-67 | starting from `c0` in `[0, skip]`, n successful grabs leave the counter at `(n + c0) % (skip+1)` |
| DriverCycle.ForwardsCeiling | src/driver.cpp:53-67 | a worker starts at `counter = skip`, so n successes forward exactly ceil(n / (skip+1)) frames, stated as a division and as the ceiling's two inequalities. A forward whose two images are empty publishes nothing, so this counts forwards, not publishes |
| DriverCycle.NegativeSkipForwardsAll | src/driver.cpp:53-67 | with a negative `skip` (a signed int from the configuration) every successful grab is forwarded |
| DriverCycle.FirstSuccessForwarded | src/driver.cpp:53-67 | a fresh worker publishes nothing before its first successful grab and forwards that grab, publishing exactly its fan-out |
| DriverCycle.FailuresOnly | src/driver.cpp:60-113 | failed grabs alone change neither the counter nor the output |
| DriverCycle.DropsNextSkip | src/driver.cpp:64-67 | after a forward (counter 0), the next `skip` successes publish nothing and the success after them is forwarded |
| DriverCycle.CounterSplit | src/driver.cpp:54-67 | the counter after grabs a + b is the counter after b, started from where a leaves it |
| DriverCycle.ReplaySplit | src/driver.cpp:54-114 | the output over grabs a + b is a's output, then b's output started from the counter a leaves |
| DriverCycle.DropsAfterForward | src/driver.cpp:64-67 | anywhere inside one run, after an iteration that forwards, the next `skip` successes publish nothing and the success after them is forwarded |
| DriverCycle.TraceBound | src/driver.cpp:65-107 | over a whole run, at most four messages per forwarded frame: the trace length is at most 4 × ForwardCount |
| DriverCycle.PerFrameOutput | src/driver.cpp:60-107 | frame by frame: an iteration that fails its grab or drops the frame publishes nothing; a forwarded frame publishes exactly its fan-out, at most four messages |
| DriverCycle.TraceFrameIds | src/driver.cpp:69-107 | every message a worker publishes carries its camera's frame_id |
| DriverCycle.FailuresInvisible | src/driver.cpp:60-113 | counter, output and forward count are the same as if the failed grabs had never happened |
| DriverCycle.Decide | src/driver.cpp:60-67 | no contract; characterised by NextCounter, NegativeSkipForwardsAll and DropsNextSkip |
| DriverCycle.ColorPart | src/driver.cpp:71-78 | no contract; characterised by FanOutEmits and FanOutContents |
| DriverCycle.RawPart | src/driver.cpp:80-92 | no contract; characterised by FanOutEmits, FanOutContents and RawEncoding |
| DriverCycle.MetaPart | src/driver.cpp:94-107 | no contract; characterised by FanOutEmits, FanOutContents and FanOutHeaders |
| DriverCycle.FanOut | src/driver.cpp:69-107 | no contract; characterised by FanOutOrder, FanOutHeaders, FanOutEmits and FanOutContents |
| DriverCycle.CycleOutput | src/driver.cpp:60-107 | no contract; characterised by Worker.Cycle and PerFrameOutput |
| DriverCycle.TraceOf | src/driver.cpp:54-114 | no contract; characterised by Worker.Run, ReplaySplit, TraceBound, PerFrameOutput, TraceFrameIds, FirstSuccessForwarded, FailuresOnly and FailuresInvisible |
| DriverWorker.Worker.constructor | src/driver.cpp:52-53 | a worker starts with `counter == skip` and nothing published |
| DriverWorker.Worker.Cycle | src/driver.cpp:55-113 | one iteration: the counter becomes NextCounter and the published messages grow by exactly CycleOutput. A failed or dropped grab publishes nothing. The counter stays in range |
| DriverWorker.Worker.Run | src/driver.cpp:53-114 | the loop over a sequence of grab outcomes leaves counter CounterAfter and published TraceOf, from the counter it started with |
| DriverNode.Node.constructor | src/driver.cpp:22-28 | the statics start as `run = true`, `skip = 0` and the four default topic templates |
| DriverNode.Node.SigintHandler | src/driver.cpp:30-35 | clears `run`; logs once only if `run` was still set, so repeated SIGINTs log once; touches nothing else |
| DriverNode.Node.ApplyConfigs | src/driver.cpp:37-50 | every setting is tried on every camera in order, and a refusal is logged without stopping. `skip` becomes the configured "skip" or 0. The four templates become the configured keys or their defaults |
| DriverNode.Node.InitializeCameras | src/driver.cpp:126-131 | cameras are initialised in order up to and including the first failure; success iff none fails |
| DriverNode.Node.StartCamera | src/driver.cpp:147-151 | camera idx's four publishers are advertised on its templates formatted with idx. Its worker is spawned with counter `skip` and publishes exactly TraceOf of its grabs |
| DriverNode.Node.LaunchWorkers | src/driver.cpp:145-153 | cameras are launched in index order, camera i with topic index i |
| DriverNode.Node.Teardown | src/driver.cpp:155-163 | joins every thread, then clears every camera, then releases the runtime |
| DriverNode.Node.RunMain | src/driver.cpp:117-165 | returns MainCode, -1 iff a camera fails default initialisation. The events are exactly MainEvents. On success the configured values are in place, and `run` is false exactly when there was a camera (with none, nothing waits for SIGINT); on failure nothing was configured |
| DriverNode.NoCameraNoWait | src/driver.cpp:140-164 | with no camera, `main` returns 0 after obtaining the runtime, enumerating and releasing: no publisher, no thread, no SIGINT wait |
| DriverNode.ConfigureAll | src/driver.cpp:37-44 | no contract; characterised by Node.ApplyConfigs, ConfigureAllShape, ConfigureAllComplete and ConfigureAllPrefix |
| DriverNode.ConfigureAllComplete | src/driver.cpp:38-44 | every setting is tried on every camera, with that camera's outcome: a refusal does not stop the loop |
| DriverNode.ConfigureCameraComplete | src/driver.cpp:39-43 | every setting is tried on one camera, whatever the earlier settings' outcomes |
| DriverNode.ConfigureAllPrefix | src/driver.cpp:38-44 | configuring more cameras only appends: the events of the first m cameras are a prefix of those of the first n whenever m <= n |
| DriverNode.MainEvents | src/driver.cpp:117-165 | no contract; characterised by Node.RunMain, AbortsOnInitFailure, LifecycleOrder, MainOrdered, CameraOutputIndependent, AdvertisedTopics, AllChannelsAdvertised, EmittedFrameIds and NoCameraNoWait |
| DriverNode.FirstFailure | src/driver.cpp:126-131 | the index of the first camera that fails to initialise (or the count): all before it initialise |
| DriverNode.AbortsOnInitFailure | src/driver.cpp:126-131 | after a failed default initialisation, main returns -1. Before that it only obtained the runtime, enumerated and initialised cameras up to the failing one. Nothing was configured, advertised, spawned, published, joined, cleared or released |
| DriverNode.LifecycleOrder | src/driver.cpp:123-164 | on success main returns 0. Every initialisation precedes every configure, which precedes every launch event. Per camera: advertise before spawn before publish. Joins precede clears, clears precede release, which is last. Every camera is initialised, spawned, joined and cleared. Launches precede every join only in the model, whose threads run one after the other; in the program camera c's publishes precede Join(c), and all publishes precede the clears |
| DriverNode.MainOrdered | src/driver.cpp:123-164 | the events of a successful run are ordered by phase, and the launch events by camera and then advertise/spawn/publish. These are orderings of the model's one-after-the-other threads: in the program, the publishes of different cameras interleave with each other and with later advertisements; an iteration already running when SIGINT arrives publishes after the log line, and possibly after other cameras' joins. In the program, per camera, advertise precedes spawn precedes publish; camera c's publishes precede Join(c); and all publishes precede the clears |
| DriverNode.OrderedLifecycle | src/driver.cpp:126-163 | phase and launch order imply each pairwise ordering of the lifecycle |
| DriverNode.CameraOutputIndependent | src/driver.cpp:145-152 | what camera c publishes during main is exactly its own worker's TraceOf its own grabs from counter `skip`; nothing else contributes |
| DriverNode.AdvertisedTopics | src/driver.cpp:146-150 | every publisher of camera i is advertised on its channel's template formatted with i |
| DriverNode.AllChannelsAdvertised | src/driver.cpp:146-150 | every camera gets a publisher on each of the four channels |
| DriverNode.EmittedFrameIds | src/driver.cpp:145-152 | every message published during main carries the frame_id of the camera whose worker published it |
| Adk.WaitForImage | script/flir_adk.py:23-27 | the stream position after a successful grab, 0 after a failed one |
| Adk.FirstChannel | script/flir_adk.py:32 | `image[:,:,0]`: same shape, each pixel reduced to its first channel |
| Adk.FirstChannelLossless | script/flir_adk.py:32 | when the three channels are equal (the script's stated assumption), the first channel alone reconstructs the frame |
| Adk.FirstChannelOfSpread | script/flir_adk.py:32 | reducing a frame spread from one channel gives that channel back |
| Adk.RetriveImage | script/flir_adk.py:29-36 | `None` iff the retrieve fails, otherwise the first channel only |
| Adk.NextSkip | script/flir_adk.py:84-102 | a missing image leaves `skip` alone; `skip == SKIP_FRAME` resets it to 0; otherwise it is incremented; `[0, SKIP_FRAME]` is preserved |
| Adk.StepOutputSpec | script/flir_adk.py:84-99 | an iteration publishes iff it retrieved an image with `skip == SKIP_FRAME`. It then publishes two messages: a mono8 image of the first channel (frame_id "flir/adk/image_thermal", the ROS clock as stamp), then a time reference with the same header, the position in seconds and source "v4l_driver" |
| Adk.StepOutput | script/flir_adk.py:77-102 | no contract; characterised by StepOutputSpec and NoImageChangesNothing |
| Adk.TraceAfter | script/flir_adk.py:76-102 | no contract; characterised by PublishLoop, TracePaired, PublishCount and FirstPublishOnSixthImage |
| Adk.SkipAfter | script/flir_adk.py:71-102 | `skip` stays in `[0, SKIP_FRAME]` throughout the loop |
| Adk.PublishIdentity | script/flir_adk.py:89-102 | publishes × 6 + final counter == images + initial counter |
| Adk.PublishCount | script/flir_adk.py:71-102 | over N retrieved images there are exactly floor(N/6) publishes, and the counter ends at N mod 6 |
| Adk.FirstPublishOnSixthImage | script/flir_adk.py:71-102 | nothing is published during the first five images; the sixth image is published |
| Adk.NoImageChangesNothing | script/flir_adk.py:83-87 | an iteration whose image is `None` changes neither the counter, nor the output, nor the publish count |
| Adk.TracePaired | script/flir_adk.py:89-99 | the output is exactly two messages per publish: a mono8 image with frame_id "flir/adk/image_thermal", followed by a time reference with the same header and source "v4l_driver" |
| Adk.PublishLoop | script/flir_adk.py:71-102 | the loop's output is TraceAfter and its counter is SkipAfter, within `[0, SKIP_FRAME]`. `prev_time_stamp_ms` ends as the last iteration's `wait_for_image` value, including iterations whose image was missing |
| Adk.AdkMain | script/flir_adk.py:49-104 | returns -1 with nothing published when the device is not open. Otherwise the 100 warm-up iterations publish nothing, publishing then follows the loop on the remaining polls, and the script returns nothing |

## Left out

- ROS, Spinnaker, OpenCV and V4L internals. `ros::init`, node handles, queue sizes, `cv_bridge`
  conversion, CvBridge and the message serialisation are not modelled. A publish is an entry in a trace.
- Concurrency: the worker threads run interleaved with each other and with the signal. The model
  runs them one after the other, with SIGINT after the last spawn. The shared state is `run` and
  `skip`, which a worker only reads, and `skip` is written (src/driver.cpp:45) before the first
  spawn. So the per-camera outputs do not depend on the interleaving.
  - The model does not cover SIGINT arriving during startup.
  - It does not cover a worker that has not yet started when `run` is cleared.
- Timing: the pacing `usleep(10000)` after a forwarded frame (src/driver.cpp:109) and the `usleep(100000)` back-off
  after a failed grab (src/driver.cpp:112) are not modelled; a dropped frame `continue`s without sleeping, so
  throttled frames are grabbed back to back. `time.time()` and `rospy.Time.now()` are not modelled either.
  The clocks are inputs of each grab or poll.
- Floating point:
  - Exposure and gain are carried as opaque 64-bit patterns.
  - The script's positions are `real`. In the model `/ 1000` is exact real division; the script's
    float rounding and the rounding in `rospy.Time.from_seconds` are not modelled.
  - The warm-up `delta` calibration (script/flir_adk.py:61-75) is arithmetic on a value that is
    overwritten with -1 and never read, and is left out.
- `strfmt` and the configuration reader are not part of this model.
  - `strfmt` is represented by the pair (template, index), i.e. assumed injective.
  - The default addition template "/blackfly/additional" contains no `%`, so the real `strfmt`
    may give every camera the same addition topic. The model keeps one label per camera.
- The `ros::Time` conversions (`fromNSec`) are identity on the nanosecond stamps. The 32-bit
  seconds field of `ros::Time` is not modelled.
- DriverWorker.Worker.Cycle: `counter += 1` is unbounded. A 32-bit `int` would overflow when `skip` is INT_MAX,
  and that case is not modelled.
- DriverNode.Node.RunMain: the number of SIGINTs is an input, at least one when there is a camera.
  With at least one camera and no SIGINT the joins never return, which the model does not represent.
  With no camera, SIGINTs are ignored: `main` has already returned.
- DriverNode.Node.RunMain: on the -1 path the source returns without clearing cameras or releasing the
  runtime (src/driver.cpp:127-130). The model records exactly that, and does not model what the
  process exit then releases.
- Adk.AdkMain: `argparse` and the port number are left out. `cv2.VideoCapture(...).isOpened()`
  is the input `isOpened`, and `finalize_adk`'s `release()` is not traced.
  - The warm-up loop needs the device to answer 100 polls (the precondition
    `|polls| >= SAMPLES`).
  - `rospy.is_shutdown()` is modelled as the end of the sequence of polls.
- Console output and the `DEBUG` branches (DEBUG is False) are left out. So are `ROS_INFO` and
  `ROS_FATAL`, except the SIGINT log, which the event trace records.
