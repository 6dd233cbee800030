/**
 * The process around the capture workers (src/driver.cpp:22-50, 117-165): the
 * static globals (`run`, `skip`, the topic templates), `sigint_handler`,
 * `apply_configs`, and `main`'s startup and teardown. Every call into the camera
 * layer, the vendor runtime or the transport layer becomes an `Event` appended to
 * the node's event trace; the publications of worker i appear as `Emitted(i, _)`.
 *
 * Threads are linearised: worker i runs its iterations right after it is spawned,
 * a SIGINT (possibly several) arrives once every worker is running, and the joins
 * follow. The workers share `run` and `skip`, which they only read; `skip` is set
 * by `apply_configs` before the first spawn.
 */
module DriverNode {
  import opened Common
  import opened DriverCycle
  import opened DriverWorker

  // Defaults of `apply_configs` (src/driver.cpp:45-49), equal to the static initial values.
  const DEFAULT_SKIP: int := 0
  const DEFAULT_TOPIC_RAW: string := "/blackfly/cam%/image_raw"
  const DEFAULT_TOPIC_RGB: string := "/blackfly/cam%/image_color"
  const DEFAULT_TOPIC_STAMP: string := "/blackfly/cam%/time_reference"
  const DEFAULT_TOPIC_ADDITION: string := "/blackfly/additional"

  /** One per-camera setting from the configuration file. */
  datatype Setting = Setting(field: string, value: string)

  /**
   * A camera handle, given by how it answers: whether `default_initialization()`
   * succeeds, which settings `configure` refuses, and the outcomes of the `grab`
   * calls its worker makes while `run` is true.
   */
  datatype Device = Device(initializes: bool, rejects: set<Setting>, grabs: seq<Option<Frame>>)

  /** The parsed configuration: the camera settings and typed key lookups. */
  datatype Reader = Reader(cameraConfigs: seq<Setting>, ints: map<string, int>, strings: map<string, string>) {
    function GetInt(key: string, default: int): int {
      if key in ints then ints[key] else default
    }
    function GetString(key: string, default: string): string {
      if key in strings then strings[key] else default
    }
  }

  /** The four topic-name templates, each with a `%` for the camera index. */
  datatype Templates = Templates(raw: string, rgb: string, stamp: string, addition: string)

  function DefaultTemplates(): Templates {
    Templates(DEFAULT_TOPIC_RAW, DEFAULT_TOPIC_RGB, DEFAULT_TOPIC_STAMP, DEFAULT_TOPIC_ADDITION)
  }

  function ConfiguredSkip(reader: Reader): int {
    reader.GetInt("skip", DEFAULT_SKIP)
  }

  function ConfiguredTemplates(reader: Reader): Templates {
    Templates(reader.GetString("ros_topic_raw", DEFAULT_TOPIC_RAW),
              reader.GetString("ros_topic_color", DEFAULT_TOPIC_RGB),
              reader.GetString("ros_topic_time", DEFAULT_TOPIC_STAMP),
              reader.GetString("additional_topic", DEFAULT_TOPIC_ADDITION))
  }

  /** The template a channel's topic is formatted from. */
  function Template(t: Templates, c: Channel): string {
    match c
    case RawChannel => t.raw
    case RgbChannel => t.rgb
    case TimeChannel => t.stamp
    case AdditionChannel => t.addition
  }

  /** What the process does that is visible from outside, in order. */
  datatype Event =
    | GetInstance                                           // Spinnaker::System::GetInstance()
    | Enumerated(count: nat)                                // Device::enumerate()
    | DefaultInitialization(camera: nat, ok: bool)
    | Configure(camera: nat, setting: Setting, ok: bool)    // ok == false is logged, not fatal
    | Advertise(camera: nat, channel: Channel, topic: Label)
    | Spawn(camera: nat)                                    // the worker thread is created
    | Emitted(camera: nat, pub: Publication)                // a publish by that camera's worker
    | SigintReceived                                        // the handler's log line
    | Join(camera: nat)
    | Clear(camera: nat)
    | ReleaseInstance                                       // system->ReleaseInstance()

  /** The phase of `main` an event belongs to. */
  function Phase(e: Event): nat {
    match e
    case GetInstance => 0
    case Enumerated(_) => 1
    case DefaultInitialization(_, _) => 2
    case Configure(_, _, _) => 3
    case Advertise(_, _, _) => 4
    case Spawn(_) => 4
    case Emitted(_, _) => 4
    case SigintReceived => 5
    case Join(_) => 6
    case Clear(_) => 7
    case ReleaseInstance => 8
  }

  predicate IsLaunch(e: Event) {
    e.Advertise? || e.Spawn? || e.Emitted?
  }

  /** Within the launch phase: by camera, and per camera advertise, spawn, publish. */
  function LaunchRank(e: Event): nat
    requires IsLaunch(e)
  {
    3 * e.camera + if e.Advertise? then 0 else if e.Spawn? then 1 else 2
  }

  ghost predicate PhaseOrdered(es: seq<Event>) {
    forall i, j :: 0 <= i < j < |es| ==> Phase(es[i]) <= Phase(es[j])
  }

  /**
   * Launch events by camera, then advertise, spawn, publish. This holds of the
   * one-after-the-other threads of the model; in the program only the per-camera part
   * does, since the workers' publishes interleave.
   */
  ghost predicate LaunchOrdered(es: seq<Event>) {
    forall i, j :: 0 <= i < j < |es| && IsLaunch(es[i]) && IsLaunch(es[j]) ==>
      LaunchRank(es[i]) <= LaunchRank(es[j])
  }

  /**
   * The orderings of `main`'s trace, stated pair by pair. The fifth (every launch
   * event before every join) holds of the model's one-after-the-other threads; in the
   * program a worker still inside `grab` when SIGINT arrives can publish after another
   * camera's join, so there only camera c's publishes precede `Join(c)`.
   */
  ghost predicate LifecycleOrdered(es: seq<Event>) {
    && (forall i, j :: 0 <= i < |es| && 0 <= j < |es| && es[i].DefaultInitialization? && es[j].Configure? ==> i < j)
    && (forall i, j :: 0 <= i < |es| && 0 <= j < |es| && es[i].Configure? && IsLaunch(es[j]) ==> i < j)
    && (forall i, j :: 0 <= i < |es| && 0 <= j < |es| && es[i].Advertise? && es[j].Spawn? && es[i].camera == es[j].camera ==> i < j)
    && (forall i, j :: 0 <= i < |es| && 0 <= j < |es| && es[i].Spawn? && es[j].Emitted? && es[i].camera == es[j].camera ==> i < j)
    && (forall i, j :: 0 <= i < |es| && 0 <= j < |es| && IsLaunch(es[i]) && es[j].Join? ==> i < j)
    && (forall i, j :: 0 <= i < |es| && 0 <= j < |es| && es[i].Join? && es[j].Clear? ==> i < j)
    && (forall i, j :: 0 <= i < |es| && 0 <= j < |es| && es[i].Clear? && es[j].ReleaseInstance? ==> i < j)
  }

  // ---------------------------------------------------------------------------
  // The event trace of `main`, as functions of its inputs.

  /** The index of the first camera whose default initialisation fails, or the camera count. */
  function FirstFailure(cameras: seq<Device>): (k: nat)
    ensures k <= |cameras|
    ensures forall j :: 0 <= j < k ==> cameras[j].initializes
    ensures k < |cameras| ==> !cameras[k].initializes
  {
    if cameras == [] then 0
    else if !cameras[0].initializes then 0
    else 1 + FirstFailure(cameras[1..])
  }

  function MainCode(cameras: seq<Device>): int {
    if FirstFailure(cameras) < |cameras| then -1 else 0
  }

  /** Successful default initialisations of cameras 0 .. k-1. */
  function InitEvents(k: nat): seq<Event> {
    if k == 0 then [] else InitEvents(k - 1) + [DefaultInitialization(k - 1, true)]
  }

  /** `apply_configs` for one camera: every setting, in order. */
  function ConfigureCamera(c: nat, cam: Device, configs: seq<Setting>): seq<Event>
    decreases |configs|
  {
    if configs == [] then []
    else ConfigureCamera(c, cam, AllButLast(configs)) + [Outcome(c, cam, Last(configs))]
  }

  /** Trying one setting on camera c: it succeeds unless the camera refuses it. */
  function Outcome(c: nat, cam: Device, setting: Setting): Event {
    Configure(c, setting, setting !in cam.rejects)
  }

  /** `apply_configs` for cameras 0 .. n-1. */
  function ConfigureAll(cameras: seq<Device>, configs: seq<Setting>, n: nat): seq<Event>
    requires n <= |cameras|
  {
    if n == 0 then []
    else ConfigureAll(cameras, configs, n - 1) + ConfigureCamera(n - 1, cameras[n - 1], configs)
  }

  function Advertisements(c: nat, t: Templates): seq<Event> {
    [Advertise(c, RawChannel, StrFmt(t.raw, c)),
     Advertise(c, RgbChannel, StrFmt(t.rgb, c)),
     Advertise(c, TimeChannel, StrFmt(t.stamp, c)),
     Advertise(c, AdditionChannel, StrFmt(t.addition, c))]
  }

  /** A worker's publications as events of the process. */
  function Emissions(c: nat, pubs: seq<Publication>): seq<Event>
    decreases |pubs|
  {
    if pubs == [] then [] else Emissions(c, AllButLast(pubs)) + [Emitted(c, Last(pubs))]
  }

  /** Camera c's publishers, its thread, and what that thread publishes. */
  function LaunchCamera(c: nat, pubs: seq<Publication>, t: Templates): seq<Event> {
    Advertisements(c, t) + [Spawn(c)] + Emissions(c, pubs)
  }

  /** What each worker publishes when it starts from counter `skip` on its own grabs. */
  function Traces(cameras: seq<Device>, skip: int): (ts: seq<seq<Publication>>)
    ensures |ts| == |cameras|
    ensures forall i :: 0 <= i < |cameras| ==> ts[i] == TraceOf(skip, i, skip, cameras[i].grabs)
  {
    seq(|cameras|, i requires 0 <= i < |cameras| => TraceOf(skip, i, skip, cameras[i].grabs))
  }

  /** Cameras 0 .. n-1 launched one after the other, camera i publishing traces[i]. */
  function Launches(traces: seq<seq<Publication>>, t: Templates, n: nat): seq<Event>
    requires n <= |traces|
  {
    if n == 0 then []
    else Launches(traces, t, n - 1) + LaunchCamera(n - 1, traces[n - 1], t)
  }

  function Joins(n: nat): seq<Event> {
    if n == 0 then [] else Joins(n - 1) + [Join(n - 1)]
  }

  function Clears(n: nat): seq<Event> {
    if n == 0 then [] else Clears(n - 1) + [Clear(n - 1)]
  }

  /** Startup of a run in which every camera initialises: up to the end of `apply_configs`. */
  function Startup(cameras: seq<Device>, reader: Reader): seq<Event> {
    [GetInstance, Enumerated(|cameras|)] + InitEvents(|cameras|) + ConfigureAll(cameras, reader.cameraConfigs, |cameras|)
  }

  /** After the workers stop: join them all, clear them all, release the runtime. */
  function TeardownEvents(n: nat): seq<Event> {
    Joins(n) + Clears(n) + [ReleaseInstance]
  }

  /**
   * The SIGINT log line, when `main` waits for it: only the joins wait for `run` to be
   * cleared, so with no camera nothing waits and the teardown follows at once.
   */
  function SignalEvents(n: nat): seq<Event> {
    if n == 0 then [] else [SigintReceived]
  }

  /** From the first SIGINT that `main` waits for to its return. */
  function Shutdown(n: nat): seq<Event> {
    SignalEvents(n) + TeardownEvents(n)
  }

  /** Everything `main` does, up to its return. */
  function MainEvents(cameras: seq<Device>, reader: Reader): seq<Event> {
    var n := |cameras|;
    var k := FirstFailure(cameras);
    if k < n then
      [GetInstance, Enumerated(n)] + InitEvents(k) + [DefaultInitialization(k, false)]
    else
      Startup(cameras, reader)
      + Launches(Traces(cameras, ConfiguredSkip(reader)), ConfiguredTemplates(reader), n)
      + Shutdown(n)
  }

  /** The publications of camera c, in the order they appear in a trace. */
  function EmittedBy(es: seq<Event>, c: nat): seq<Publication>
    decreases |es|
  {
    if es == [] then []
    else EmittedBy(AllButLast(es), c) + if Last(es).Emitted? && Last(es).camera == c then [Last(es).pub] else []
  }

  // ---------------------------------------------------------------------------
  // The process globals and the operations that change them.

  class Node {
    var run: bool
    var skip: int
    var topicRaw: string
    var topicRgb: string
    var topicStamp: string
    var topicAddition: string
    /** Everything the process has done so far that is visible from outside. */
    var events: seq<Event>

    function CurrentTemplates(): Templates
      reads this
    {
      Templates(topicRaw, topicRgb, topicStamp, topicAddition)
    }

    /** The static initial values (src/driver.cpp:22-28). */
    constructor ()
      ensures run && skip == DEFAULT_SKIP && CurrentTemplates() == DefaultTemplates()
      ensures events == []
    {
      run := true;
      skip := DEFAULT_SKIP;
      topicRgb := DEFAULT_TOPIC_RGB;
      topicRaw := DEFAULT_TOPIC_RAW;
      topicStamp := DEFAULT_TOPIC_STAMP;
      topicAddition := DEFAULT_TOPIC_ADDITION;
      events := [];
    }

    /** `sigint_handler`: clears `run`, logging only when it was still set. */
    method SigintHandler()
      modifies this
      ensures !run
      ensures events == old(events) + if old(run) then [SigintReceived] else []
      ensures skip == old(skip) && CurrentTemplates() == old(CurrentTemplates())
    {
      if run {
        events := events + [SigintReceived];
        run := false;
      }
    }

    /** `apply_configs`: every setting on every camera, then the process-wide parameters. */
    method ApplyConfigs(cameras: seq<Device>, reader: Reader)
      modifies this
      ensures run == old(run)
      ensures events == old(events) + ConfigureAll(cameras, reader.cameraConfigs, |cameras|)
      ensures skip == ConfiguredSkip(reader) && CurrentTemplates() == ConfiguredTemplates(reader)
    {
      var c := 0;
      while c < |cameras|
        invariant 0 <= c <= |cameras|
        invariant run == old(run)
        invariant events == old(events) + ConfigureAll(cameras, reader.cameraConfigs, c)
      {
        var configs := reader.cameraConfigs;
        ghost var e1 := events;
        var j := 0;
        while j < |configs|
          invariant 0 <= j <= |configs|
          invariant run == old(run)
          invariant events == e1 + ConfigureCamera(c, cameras[c], configs[..j])
        {
          ConfigureCameraStep(c, cameras[c], configs, j);
          var ok := configs[j] !in cameras[c].rejects;
          events := events + [Configure(c, configs[j], ok)];
          Assoc(e1, ConfigureCamera(c, cameras[c], configs[..j]), [Configure(c, configs[j], ok)]);
          j := j + 1;
        }
        assert configs[..j] == configs;
        Assoc(old(events), ConfigureAll(cameras, configs, c), ConfigureCamera(c, cameras[c], configs));
        c := c + 1;
      }
      skip := reader.GetInt("skip", DEFAULT_SKIP);
      topicRaw := reader.GetString("ros_topic_raw", DEFAULT_TOPIC_RAW);
      topicRgb := reader.GetString("ros_topic_color", DEFAULT_TOPIC_RGB);
      topicStamp := reader.GetString("ros_topic_time", DEFAULT_TOPIC_STAMP);
      topicAddition := reader.GetString("additional_topic", DEFAULT_TOPIC_ADDITION);
    }

    /** The default-initialisation loop of `main`, which stops at the first failure. */
    method InitializeCameras(cameras: seq<Device>) returns (ok: bool)
      modifies this
      ensures ok == (FirstFailure(cameras) == |cameras|)
      ensures events == old(events) + InitEvents(FirstFailure(cameras))
                        + if ok then [] else [DefaultInitialization(FirstFailure(cameras), false)]
      ensures run == old(run) && skip == old(skip) && CurrentTemplates() == old(CurrentTemplates())
    {
      var i := 0;
      while i < |cameras|
        invariant 0 <= i <= |cameras|
        invariant forall j :: 0 <= j < i ==> cameras[j].initializes
        invariant run == old(run) && skip == old(skip) && CurrentTemplates() == old(CurrentTemplates())
        invariant events == old(events) + InitEvents(i)
      {
        if !cameras[i].initializes {
          events := events + [DefaultInitialization(i, false)];
          return false;
        }
        events := events + [DefaultInitialization(i, true)];
        i := i + 1;
      }
      return true;
    }

    /**
     * One iteration of `main`'s launch loop: advertise camera idx's four publishers
     * on the templates formatted with idx, then start its worker thread.
     */
    method StartCamera(idx: nat, grabs: seq<Option<Frame>>)
      requires run
      modifies this
      ensures events == old(events) + LaunchCamera(idx, TraceOf(skip, idx, skip, grabs), CurrentTemplates())
      ensures run && skip == old(skip) && CurrentTemplates() == old(CurrentTemplates())
    {
      ghost var e0 := events;
      events := events + [Advertise(idx, RawChannel, StrFmt(topicRaw, idx))];
      events := events + [Advertise(idx, RgbChannel, StrFmt(topicRgb, idx))];
      events := events + [Advertise(idx, TimeChannel, StrFmt(topicStamp, idx))];
      events := events + [Advertise(idx, AdditionChannel, StrFmt(topicAddition, idx))];
      ghost var ads := Advertisements(idx, CurrentTemplates());
      assert events == e0 + ads;
      var worker := new Worker(idx, skip);
      events := events + [Spawn(idx)];
      worker.Run(grabs);
      ghost var pubs := TraceOf(skip, idx, skip, grabs);
      assert worker.trace == pubs;
      events := events + Emissions(idx, worker.trace);
      Assoc(e0, ads, [Spawn(idx)]);
      Assoc(e0, ads + [Spawn(idx)], Emissions(idx, pubs));
    }

    /** The launch loop of `main`, camera by camera. */
    method LaunchWorkers(cameras: seq<Device>)
      requires run
      modifies this
      ensures events == old(events) + Launches(Traces(cameras, skip), CurrentTemplates(), |cameras|)
      ensures run && skip == old(skip) && CurrentTemplates() == old(CurrentTemplates())
    {
      ghost var traces := Traces(cameras, skip);
      var idx := 0;
      while idx < |cameras|
        invariant 0 <= idx <= |cameras|
        invariant run && skip == old(skip) && CurrentTemplates() == old(CurrentTemplates())
        invariant events == old(events) + Launches(traces, CurrentTemplates(), idx)
      {
        StartCamera(idx, cameras[idx].grabs);
        LaunchesStep(old(events), traces, CurrentTemplates(), idx);
        idx := idx + 1;
      }
    }

    /** Join every thread, clear every camera, release the vendor runtime. */
    method Teardown(n: nat)
      modifies this
      ensures events == old(events) + TeardownEvents(n)
      ensures run == old(run) && skip == old(skip) && CurrentTemplates() == old(CurrentTemplates())
    {
      var w := 0;
      while w < n
        invariant 0 <= w <= n
        invariant run == old(run) && skip == old(skip) && CurrentTemplates() == old(CurrentTemplates())
        invariant events == old(events) + Joins(w)
      {
        events := events + [Join(w)];
        w := w + 1;
      }
      var c := 0;
      while c < n
        invariant 0 <= c <= n
        invariant run == old(run) && skip == old(skip) && CurrentTemplates() == old(CurrentTemplates())
        invariant events == old(events) + Joins(n) + Clears(c)
      {
        events := events + [Clear(c)];
        c := c + 1;
      }
      events := events + [ReleaseInstance];
      Assoc(old(events), Joins(n), Clears(n));
      Assoc(old(events), Joins(n) + Clears(n), [ReleaseInstance]);
    }

    /**
     * `main`, from `GetInstance` to its return value, given the enumerated cameras,
     * the configuration and the number of SIGINTs delivered (at least one: without
     * one the joins never return).
     */
    method RunMain(cameras: seq<Device>, reader: Reader, signals: nat) returns (code: int)
      requires run && (|cameras| > 0 ==> signals >= 1)
      modifies this
      ensures code == MainCode(cameras)
      ensures events == old(events) + MainEvents(cameras, reader)
      ensures code == 0 ==> run == (|cameras| == 0) && skip == ConfiguredSkip(reader) && CurrentTemplates() == ConfiguredTemplates(reader)
      ensures code != 0 ==> run && skip == old(skip) && CurrentTemplates() == old(CurrentTemplates())
    {
      var n := |cameras|;
      events := events + [GetInstance];
      events := events + [Enumerated(n)];
      assert events == old(events) + [GetInstance, Enumerated(n)];
      var ok := InitializeCameras(cameras);
      if !ok {
        Assoc(old(events), [GetInstance, Enumerated(n)], InitEvents(FirstFailure(cameras)));
        Assoc(old(events), [GetInstance, Enumerated(n)] + InitEvents(FirstFailure(cameras)),
              [DefaultInitialization(FirstFailure(cameras), false)]);
        return -1;
      }
      assert events == old(events) + [GetInstance, Enumerated(n)] + InitEvents(n);
      ApplyConfigs(cameras, reader);
      Assoc(old(events), [GetInstance, Enumerated(n)], InitEvents(n));
      Assoc(old(events), [GetInstance, Enumerated(n)] + InitEvents(n), ConfigureAll(cameras, reader.cameraConfigs, n));
      assert events == old(events) + Startup(cameras, reader);
      LaunchWorkers(cameras);
      ghost var launched := events;
      if n > 0 {
        // the joins wait until a SIGINT clears `run`
        var s := 0;
        while s < signals
          invariant 0 <= s <= signals
          invariant run == (s == 0)
          invariant skip == ConfiguredSkip(reader) && CurrentTemplates() == ConfiguredTemplates(reader)
          invariant events == launched + if s == 0 then [] else [SigintReceived]
        {
          SigintHandler();
          s := s + 1;
        }
      }
      assert events == launched + SignalEvents(n);
      Teardown(n);
      MainEventsParts(cameras, reader);
      ghost var front := Startup(cameras, reader);
      ghost var launches := Launches(Traces(cameras, ConfiguredSkip(reader)), ConfiguredTemplates(reader), n);
      Assoc(old(events) + front + launches, SignalEvents(n), TeardownEvents(n));
      Assoc(old(events), front, launches);
      Assoc(old(events), front + launches, Shutdown(n));
      code := 0;
    }
  }

  /** Trying one more setting appends its outcome. */
  lemma ConfigureCameraStep(c: nat, cam: Device, configs: seq<Setting>, j: nat)
    requires j < |configs|
    ensures ConfigureCamera(c, cam, configs[..j + 1])
      == ConfigureCamera(c, cam, configs[..j]) + [Outcome(c, cam, configs[j])]
  {
    assert AllButLast(configs[..j + 1]) == configs[..j];
  }

  /** Launching one more camera appends its launch to the trace. */
  lemma LaunchesStep(prefix: seq<Event>, traces: seq<seq<Publication>>, t: Templates, n: nat)
    requires n < |traces|
    ensures prefix + Launches(traces, t, n + 1) == prefix + Launches(traces, t, n) + LaunchCamera(n, traces[n], t)
  {
    assert Launches(traces, t, n + 1) == Launches(traces, t, n) + LaunchCamera(n, traces[n], t);
  }

  // ---------------------------------------------------------------------------
  // Shapes of the pieces.

  lemma {:induction false} InitEventsShape(k: nat)
    ensures forall e | e in InitEvents(k) :: e.DefaultInitialization? && e.ok && e.camera < k
    ensures forall c :: 0 <= c < k ==> DefaultInitialization(c, true) in InitEvents(k)
  {
    if k > 0 {
      InitEventsShape(k - 1);
    }
  }

  lemma {:induction false} ConfigureCameraShape(c: nat, cam: Device, configs: seq<Setting>)
    ensures forall e | e in ConfigureCamera(c, cam, configs) :: e.Configure? && e.camera == c
    decreases |configs|
  {
    if configs != [] {
      ConfigureCameraShape(c, cam, AllButLast(configs));
    }
  }

  /** Every setting is tried on camera c: a refusal does not stop the loop. */
  lemma {:induction false} ConfigureCameraComplete(c: nat, cam: Device, configs: seq<Setting>, j: nat)
    requires j < |configs|
    ensures Outcome(c, cam, configs[j]) in ConfigureCamera(c, cam, configs)
    decreases |configs|
  {
    var prev := ConfigureCamera(c, cam, AllButLast(configs));
    assert ConfigureCamera(c, cam, configs) == prev + [Outcome(c, cam, Last(configs))];
    if j < |configs| - 1 {
      assert AllButLast(configs)[j] == configs[j];
      ConfigureCameraComplete(c, cam, AllButLast(configs), j);
    }
  }

  /** Every setting is tried on every camera, with the outcome that camera gives. */
  lemma ConfigureAllComplete(cameras: seq<Device>, configs: seq<Setting>, n: nat, c: nat, j: nat)
    requires n <= |cameras| && c < n && j < |configs|
    ensures Outcome(c, cameras[c], configs[j]) in ConfigureAll(cameras, configs, n)
  {
    var e := Outcome(c, cameras[c], configs[j]);
    var upTo := ConfigureAll(cameras, configs, c + 1);
    ConfigureCameraComplete(c, cameras[c], configs, j);
    assert upTo == ConfigureAll(cameras, configs, c) + ConfigureCamera(c, cameras[c], configs);
    assert e in upTo;
    ConfigureAllPrefix(cameras, configs, c + 1, n);
    InPrefix(e, upTo, ConfigureAll(cameras, configs, n));
  }

  /** Configuring more cameras only appends: the first m cameras' events stay a prefix. */
  lemma {:induction false} ConfigureAllPrefix(cameras: seq<Device>, configs: seq<Setting>, m: nat, n: nat)
    requires m <= n <= |cameras|
    ensures ConfigureAll(cameras, configs, m) <= ConfigureAll(cameras, configs, n)
  {
    if m < n {
      ConfigureAllPrefix(cameras, configs, m, n - 1);
      PrefixAppend(ConfigureAll(cameras, configs, m), ConfigureAll(cameras, configs, n - 1),
                   ConfigureCamera(n - 1, cameras[n - 1], configs));
    }
  }

  lemma {:induction false} ConfigureAllShape(cameras: seq<Device>, configs: seq<Setting>, n: nat)
    requires n <= |cameras|
    ensures forall e | e in ConfigureAll(cameras, configs, n) :: e.Configure? && e.camera < n
  {
    if n > 0 {
      var prev := ConfigureAll(cameras, configs, n - 1);
      var last := ConfigureCamera(n - 1, cameras[n - 1], configs);
      ConfigureAllShape(cameras, configs, n - 1);
      ConfigureCameraShape(n - 1, cameras[n - 1], configs);
      forall e: Event | e in prev + last ensures e.Configure? && e.camera < n {
        if e in prev {
        } else {
          assert e in last;
        }
      }
    }
  }

  lemma {:induction false} EmissionsShape(c: nat, pubs: seq<Publication>)
    ensures forall e | e in Emissions(c, pubs) :: e.Emitted? && e.camera == c && e.pub in pubs
    decreases |pubs|
  {
    if pubs != [] {
      EmissionsShape(c, AllButLast(pubs));
    }
  }

  lemma {:induction false} JoinsShape(n: nat)
    ensures forall e | e in Joins(n) :: e.Join? && e.camera < n
    ensures forall c :: 0 <= c < n ==> Join(c) in Joins(n)
  {
    if n > 0 {
      JoinsShape(n - 1);
      forall e | e in Joins(n - 1) + [Join(n - 1)] ensures e.Join? && e.camera < n {
        if e in Joins(n - 1) {
        } else {
          assert e == Join(n - 1);
        }
      }
      forall c | 0 <= c < n ensures Join(c) in Joins(n - 1) + [Join(n - 1)] {
        if c < n - 1 {
          assert Join(c) in Joins(n - 1);
        }
      }
    }
  }

  lemma {:induction false} ClearsShape(n: nat)
    ensures forall e | e in Clears(n) :: e.Clear? && e.camera < n
    ensures forall c :: 0 <= c < n ==> Clear(c) in Clears(n)
  {
    if n > 0 {
      ClearsShape(n - 1);
      forall e | e in Clears(n - 1) + [Clear(n - 1)] ensures e.Clear? && e.camera < n {
        if e in Clears(n - 1) {
        } else {
          assert e == Clear(n - 1);
        }
      }
      forall c | 0 <= c < n ensures Clear(c) in Clears(n - 1) + [Clear(n - 1)] {
        if c < n - 1 {
          assert Clear(c) in Clears(n - 1);
        }
      }
    }
  }

  /** Every publication of camera i carries frame_id i. */
  ghost predicate TaggedTraces(traces: seq<seq<Publication>>) {
    forall i, p :: 0 <= i < |traces| && p in traces[i] ==> p.msg.header.frameId == FrameId(i)
  }

  lemma TracesTagged(cameras: seq<Device>, skip: int)
    ensures TaggedTraces(Traces(cameras, skip))
  {
    forall i | 0 <= i < |cameras| {
      TraceFrameIds(skip, i, skip, cameras[i].grabs);
    }
  }

  /** What a launch-phase event says about topics and frame_ids. */
  ghost predicate LaunchFacts(e: Event, t: Templates) {
    && IsLaunch(e)
    && (e.Advertise? ==> e.topic == StrFmt(Template(t, e.channel), e.camera))
    && (e.Emitted? ==> e.pub.msg.header.frameId == FrameId(e.camera))
  }

  lemma PhaseOrderedConcat(a: seq<Event>, b: seq<Event>, p: nat)
    requires PhaseOrdered(a) && PhaseOrdered(b)
    requires forall x | x in a :: Phase(x) <= p
    requires forall y | y in b :: p <= Phase(y)
    ensures PhaseOrdered(a + b)
  {
    forall i, j | 0 <= i < j < |a + b| ensures Phase((a + b)[i]) <= Phase((a + b)[j]) {
      if j < |a| {
        assert (a + b)[i] == a[i] && (a + b)[j] == a[j];
      } else if i >= |a| {
        assert (a + b)[i] == b[i - |a|] && (a + b)[j] == b[j - |a|];
      } else {
        assert (a + b)[i] in a && (a + b)[j] in b;
      }
    }
  }

  lemma SamePhase(es: seq<Event>, p: nat)
    requires forall e | e in es :: Phase(e) == p
    ensures PhaseOrdered(es)
  {
    forall i, j | 0 <= i < j < |es| ensures Phase(es[i]) <= Phase(es[j]) {
      assert es[i] in es && es[j] in es;
    }
  }

  lemma LaunchOrderedConcat(a: seq<Event>, b: seq<Event>)
    requires LaunchOrdered(a) && LaunchOrdered(b)
    requires forall x, y | x in a && y in b && IsLaunch(x) && IsLaunch(y) :: LaunchRank(x) <= LaunchRank(y)
    ensures LaunchOrdered(a + b)
  {
    forall i, j | 0 <= i < j < |a + b| && IsLaunch((a + b)[i]) && IsLaunch((a + b)[j])
      ensures LaunchRank((a + b)[i]) <= LaunchRank((a + b)[j])
    {
      if j < |a| {
        assert (a + b)[i] == a[i] && (a + b)[j] == a[j];
      } else if i >= |a| {
        assert (a + b)[i] == b[i - |a|] && (a + b)[j] == b[j - |a|];
      } else {
        assert (a + b)[i] in a && (a + b)[j] in b;
      }
    }
  }

  lemma LaunchOrderedSplit(a: seq<Event>, b: seq<Event>, r: nat)
    requires LaunchOrdered(a) && LaunchOrdered(b)
    requires forall x | x in a :: IsLaunch(x) && LaunchRank(x) < r
    requires forall y | y in b :: IsLaunch(y) && r <= LaunchRank(y)
    ensures LaunchOrdered(a + b)
  {
    LaunchOrderedConcat(a, b);
  }

  lemma SameRank(es: seq<Event>, r: nat)
    requires forall e | e in es :: IsLaunch(e) && LaunchRank(e) == r
    ensures LaunchOrdered(es)
  {
    forall i, j | 0 <= i < j < |es| && IsLaunch(es[i]) && IsLaunch(es[j])
      ensures LaunchRank(es[i]) <= LaunchRank(es[j])
    {
      assert es[i] in es && es[j] in es;
    }
  }

  lemma NoLaunch(es: seq<Event>)
    requires forall e | e in es :: !IsLaunch(e)
    ensures LaunchOrdered(es)
  {
    assert forall i :: 0 <= i < |es| ==> !IsLaunch(es[i]) by {
      forall i | 0 <= i < |es| ensures !IsLaunch(es[i]) {
        assert es[i] in es;
      }
    }
  }

  lemma LaunchCameraMember(c: nat, pubs: seq<Publication>, t: Templates, e: Event)
    requires forall p | p in pubs :: p.msg.header.frameId == FrameId(c)
    requires e in LaunchCamera(c, pubs, t)
    ensures LaunchFacts(e, t) && e.camera == c
  {
    if e in Emissions(c, pubs) {
      EmissionsShape(c, pubs);
    }
  }

  lemma LaunchCameraOrdered(c: nat, pubs: seq<Publication>, t: Templates)
    ensures LaunchOrdered(LaunchCamera(c, pubs, t))
  {
    var ads := Advertisements(c, t);
    var ems := Emissions(c, pubs);
    EmissionsShape(c, pubs);
    SameRank(ads, 3 * c);
    SameRank([Spawn(c)], 3 * c + 1);
    SameRank(ems, 3 * c + 2);
    LaunchOrderedConcat(ads, [Spawn(c)]);
    LaunchOrderedConcat(ads + [Spawn(c)], ems);
  }

  lemma LaunchesShape(traces: seq<seq<Publication>>, t: Templates, n: nat)
    requires n <= |traces| && TaggedTraces(traces)
    ensures forall e | e in Launches(traces, t, n) :: LaunchFacts(e, t) && e.camera < n
  {
    forall e | e in Launches(traces, t, n) ensures LaunchFacts(e, t) && e.camera < n {
      LaunchesMember(traces, t, n, e);
    }
  }

  lemma {:induction false} LaunchesMember(traces: seq<seq<Publication>>, t: Templates, n: nat, e: Event)
    requires n <= |traces| && TaggedTraces(traces) && e in Launches(traces, t, n)
    ensures LaunchFacts(e, t) && e.camera < n
  {
    var prev := Launches(traces, t, n - 1);
    var last := LaunchCamera(n - 1, traces[n - 1], t);
    assert Launches(traces, t, n) == prev + last;
    if e in prev {
      LaunchesMember(traces, t, n - 1, e);
    } else {
      LaunchCameraMember(n - 1, traces[n - 1], t, e);
    }
  }

  lemma {:induction false} LaunchesSpawn(traces: seq<seq<Publication>>, t: Templates, n: nat)
    requires n <= |traces|
    ensures forall c :: 0 <= c < n ==> Spawn(c) in Launches(traces, t, n)
  {
    if n > 0 {
      var prev := Launches(traces, t, n - 1);
      var last := LaunchCamera(n - 1, traces[n - 1], t);
      LaunchesSpawn(traces, t, n - 1);
      assert Spawn(n - 1) in last by {
        assert last[4] == Spawn(n - 1);
      }
      forall c | 0 <= c < n ensures Spawn(c) in prev + last {
        if c < n - 1 {
          assert Spawn(c) in prev;
        }
      }
    }
  }

  lemma LaunchCameraRanks(c: nat, pubs: seq<Publication>, t: Templates)
    ensures forall e | e in LaunchCamera(c, pubs, t) :: IsLaunch(e) && 3 * c <= LaunchRank(e) < 3 * c + 3
  {
    EmissionsShape(c, pubs);
  }

  lemma {:induction false} LaunchesRanks(traces: seq<seq<Publication>>, t: Templates, n: nat)
    requires n <= |traces|
    ensures forall e | e in Launches(traces, t, n) :: IsLaunch(e) && Phase(e) == 4 && LaunchRank(e) < 3 * n
  {
    if n > 0 {
      LaunchesRanks(traces, t, n - 1);
      LaunchCameraRanks(n - 1, traces[n - 1], t);
    }
  }

  lemma {:induction false} LaunchesOrdered(traces: seq<seq<Publication>>, t: Templates, n: nat)
    requires n <= |traces|
    ensures LaunchOrdered(Launches(traces, t, n))
  {
    if n > 0 {
      LaunchesOrdered(traces, t, n - 1);
      LaunchesOrderedStep(traces, t, n - 1);
    }
  }

  /** Camera d's launch comes after the launches of cameras 0 .. d-1, in rank order. */
  lemma LaunchesOrderedStep(traces: seq<seq<Publication>>, t: Templates, d: nat)
    requires d < |traces| && LaunchOrdered(Launches(traces, t, d))
    ensures LaunchOrdered(Launches(traces, t, d) + LaunchCamera(d, traces[d], t))
  {
    LaunchesRanks(traces, t, d);
    LaunchCameraRanks(d, traces[d], t);
    LaunchCameraOrdered(d, traces[d], t);
    LaunchOrderedSplit(Launches(traces, t, d), LaunchCamera(d, traces[d], t), 3 * d);
  }

  // ---------------------------------------------------------------------------
  // Properties of `main`.

  /**
   * If any camera fails its default initialisation, `main` returns -1 right after
   * that camera: no later camera is initialised, nothing is configured, advertised,
   * spawned, published, joined, cleared or released.
   */
  lemma AbortsOnInitFailure(cameras: seq<Device>, reader: Reader)
    requires FirstFailure(cameras) < |cameras|
    ensures MainCode(cameras) == -1
    ensures var es := MainEvents(cameras, reader);
      && es[|es| - 1] == DefaultInitialization(FirstFailure(cameras), false)
      && (forall e | e in es :: e.GetInstance? || e.Enumerated? || e.DefaultInitialization?)
      && (forall e | e in es && e.DefaultInitialization? :: e.camera <= FirstFailure(cameras))
      && PhaseOrdered(es)
  {
    var k := FirstFailure(cameras);
    InitEventsShape(k);
    var pre: seq<Event> := [GetInstance, Enumerated(|cameras|)];
    assert PhaseOrdered(pre);
    SamePhase(InitEvents(k), 2);
    PhaseOrderedConcat(pre, InitEvents(k), 2);
    PhaseOrderedConcat(pre + InitEvents(k), [DefaultInitialization(k, false)], 2);
  }

  lemma PhaseBefore(es: seq<Event>, i: nat, j: nat)
    requires PhaseOrdered(es) && i < |es| && j < |es| && Phase(es[i]) < Phase(es[j])
    ensures i < j
  {
  }

  lemma RankBefore(es: seq<Event>, i: nat, j: nat)
    requires LaunchOrdered(es) && i < |es| && j < |es|
    requires IsLaunch(es[i]) && IsLaunch(es[j]) && LaunchRank(es[i]) < LaunchRank(es[j])
    ensures i < j
  {
  }

  lemma OrderedLifecycle(es: seq<Event>)
    requires PhaseOrdered(es) && LaunchOrdered(es)
    ensures LifecycleOrdered(es)
  {
    forall i, j | 0 <= i < |es| && 0 <= j < |es| && es[i].DefaultInitialization? && es[j].Configure? ensures i < j {
      PhaseBefore(es, i, j);
    }
    forall i, j | 0 <= i < |es| && 0 <= j < |es| && es[i].Configure? && IsLaunch(es[j]) ensures i < j {
      PhaseBefore(es, i, j);
    }
    forall i, j | 0 <= i < |es| && 0 <= j < |es| && es[i].Advertise? && es[j].Spawn? && es[i].camera == es[j].camera
      ensures i < j
    {
      RankBefore(es, i, j);
    }
    forall i, j | 0 <= i < |es| && 0 <= j < |es| && es[i].Spawn? && es[j].Emitted? && es[i].camera == es[j].camera
      ensures i < j
    {
      RankBefore(es, i, j);
    }
    forall i, j | 0 <= i < |es| && 0 <= j < |es| && IsLaunch(es[i]) && es[j].Join? ensures i < j {
      PhaseBefore(es, i, j);
    }
    forall i, j | 0 <= i < |es| && 0 <= j < |es| && es[i].Join? && es[j].Clear? ensures i < j {
      PhaseBefore(es, i, j);
    }
    forall i, j | 0 <= i < |es| && 0 <= j < |es| && es[i].Clear? && es[j].ReleaseInstance? ensures i < j {
      PhaseBefore(es, i, j);
    }
  }

  lemma StartupShape(cameras: seq<Device>, reader: Reader)
    ensures forall e | e in Startup(cameras, reader) :: Phase(e) <= 3 && !e.Emitted? && !IsLaunch(e)
    ensures PhaseOrdered(Startup(cameras, reader))
    ensures forall c :: 0 <= c < |cameras| ==> DefaultInitialization(c, true) in Startup(cameras, reader)
  {
    var n := |cameras|;
    var pre: seq<Event> := [GetInstance, Enumerated(n)];
    InitEventsShape(n);
    ConfigureAllShape(cameras, reader.cameraConfigs, n);
    assert PhaseOrdered(pre);
    SamePhase(InitEvents(n), 2);
    SamePhase(ConfigureAll(cameras, reader.cameraConfigs, n), 3);
    PhaseOrderedConcat(pre, InitEvents(n), 2);
    PhaseOrderedConcat(pre + InitEvents(n), ConfigureAll(cameras, reader.cameraConfigs, n), 3);
  }

  lemma ShutdownShape(n: nat)
    ensures forall e | e in Shutdown(n) :: 5 <= Phase(e) && !e.Emitted? && !IsLaunch(e)
    ensures PhaseOrdered(Shutdown(n))
    ensures TeardownEvents(n)[|TeardownEvents(n)| - 1] == ReleaseInstance
    ensures forall c :: 0 <= c < n ==> Join(c) in TeardownEvents(n) && Clear(c) in TeardownEvents(n)
  {
    JoinsShape(n);
    ClearsShape(n);
    var sig := SignalEvents(n);
    SamePhase(sig, 5);
    SamePhase(Joins(n), 6);
    SamePhase(Clears(n), 7);
    PhaseOrderedConcat(sig, Joins(n), 6);
    PhaseOrderedConcat(sig + Joins(n), Clears(n), 7);
    PhaseOrderedConcat(sig + Joins(n) + Clears(n), [ReleaseInstance], 8);
    Assoc(sig, Joins(n), Clears(n));
    Assoc(sig, Joins(n) + Clears(n), [ReleaseInstance]);
  }

  /**
   * With no camera there is no thread to join: `main` advertises nothing, logs no
   * SIGINT and goes straight to the release, returning 0.
   */
  lemma NoCameraNoWait(reader: Reader)
    ensures MainCode([]) == 0
    ensures MainEvents([], reader) == [GetInstance, Enumerated(0), ReleaseInstance]
  {
    assert Startup([], reader) == [GetInstance, Enumerated(0)];
    assert Shutdown(0) == [ReleaseInstance];
  }

  /** The successful run of `main` in three parts: before, during and after the launches. */
  lemma MainEventsParts(cameras: seq<Device>, reader: Reader)
    requires FirstFailure(cameras) == |cameras|
    ensures MainEvents(cameras, reader)
            == Startup(cameras, reader)
               + Launches(Traces(cameras, ConfiguredSkip(reader)), ConfiguredTemplates(reader), |cameras|)
               + Shutdown(|cameras|)
  {
  }

  lemma MainOrdered(cameras: seq<Device>, reader: Reader)
    requires FirstFailure(cameras) == |cameras|
    ensures PhaseOrdered(MainEvents(cameras, reader)) && LaunchOrdered(MainEvents(cameras, reader))
  {
    var n := |cameras|;
    var front := Startup(cameras, reader);
    var launches := Launches(Traces(cameras, ConfiguredSkip(reader)), ConfiguredTemplates(reader), n);
    var back := Shutdown(n);
    MainEventsParts(cameras, reader);
    StartupShape(cameras, reader);
    ShutdownShape(n);
    LaunchesRanks(Traces(cameras, ConfiguredSkip(reader)), ConfiguredTemplates(reader), n);
    LaunchesOrdered(Traces(cameras, ConfiguredSkip(reader)), ConfiguredTemplates(reader), n);
    SamePhase(launches, 4);
    PhaseOrderedConcat(front, launches, 4);
    PhaseOrderedConcat(front + launches, back, 5);
    NoLaunch(front);
    NoLaunch(back);
    LaunchOrderedConcat(front, launches);
    LaunchOrderedConcat(front + launches, back);
  }

  /**
   * When every camera initialises: `main` returns 0; its events follow the phases
   * (startup, configuration, publishers and threads, the signal, joins, clears,
   * release) with every pairwise ordering of LifecycleOrdered; it ends with
   * `ReleaseInstance`; and every camera is initialised, spawned, joined and cleared.
   */
  lemma LifecycleOrder(cameras: seq<Device>, reader: Reader)
    requires FirstFailure(cameras) == |cameras|
    ensures MainCode(cameras) == 0
    ensures var es := MainEvents(cameras, reader);
      && PhaseOrdered(es) && LaunchOrdered(es) && LifecycleOrdered(es)
      && es[|es| - 1] == ReleaseInstance
      && (forall c :: 0 <= c < |cameras| ==>
            DefaultInitialization(c, true) in es && Spawn(c) in es && Join(c) in es && Clear(c) in es)
  {
    var n := |cameras|;
    var traces := Traces(cameras, ConfiguredSkip(reader));
    var front := Startup(cameras, reader);
    var launches := Launches(traces, ConfiguredTemplates(reader), n);
    var back := Shutdown(n);
    MainEventsParts(cameras, reader);
    MainOrdered(cameras, reader);
    OrderedLifecycle(MainEvents(cameras, reader));
    StartupShape(cameras, reader);
    ShutdownShape(n);
    LaunchesSpawn(traces, ConfiguredTemplates(reader), n);
    assert back[|back| - 1] == ReleaseInstance;
  }

  lemma {:induction false} EmittedByConcat(a: seq<Event>, b: seq<Event>, c: nat)
    ensures EmittedBy(a + b, c) == EmittedBy(a, c) + EmittedBy(b, c)
    decreases |b|
  {
    if b != [] {
      EmittedByConcat(a, AllButLast(b), c);
      assert AllButLast(a + b) == a + AllButLast(b);
    } else {
      assert a + b == a;
    }
  }

  lemma {:induction false} EmittedByNone(es: seq<Event>, c: nat)
    requires forall e | e in es :: !e.Emitted?
    ensures EmittedBy(es, c) == []
    decreases |es|
  {
    if es != [] {
      assert Last(es) in es;
      assert forall e | e in AllButLast(es) :: e in es;
      EmittedByNone(AllButLast(es), c);
    }
  }

  lemma {:induction false} EmittedByEmissions(d: nat, pubs: seq<Publication>, c: nat)
    ensures EmittedBy(Emissions(d, pubs), c) == if c == d then pubs else []
    decreases |pubs|
  {
    if pubs != [] {
      EmittedByEmissions(d, AllButLast(pubs), c);
      EmittedByConcat(Emissions(d, AllButLast(pubs)), [Emitted(d, Last(pubs))], c);
      assert EmittedBy([Emitted(d, Last(pubs))], c) == if c == d then [Last(pubs)] else [] by {
        assert AllButLast([Emitted(d, Last(pubs))]) == [];
      }
      if c == d {
        assert AllButLast(pubs) + [Last(pubs)] == pubs;
      }
    }
  }

  lemma EmittedByLaunchCamera(d: nat, pubs: seq<Publication>, t: Templates, c: nat)
    ensures EmittedBy(LaunchCamera(d, pubs, t), c) == if c == d then pubs else []
  {
    var head := Advertisements(d, t) + [Spawn(d)];
    EmittedByConcat(head, Emissions(d, pubs), c);
    EmittedByHead(d, t, c);
    EmittedByEmissions(d, pubs, c);
  }

  /** Advertising and spawning publish nothing. */
  lemma EmittedByHead(d: nat, t: Templates, c: nat)
    ensures EmittedBy(Advertisements(d, t) + [Spawn(d)], c) == []
  {
    EmittedByNone(Advertisements(d, t) + [Spawn(d)], c);
  }

  lemma {:induction false} EmittedByLaunches(traces: seq<seq<Publication>>, t: Templates, n: nat, c: nat)
    requires n <= |traces|
    ensures EmittedBy(Launches(traces, t, n), c) == if c < n then traces[c] else []
  {
    if n > 0 {
      var d := n - 1;
      var prev := Launches(traces, t, d);
      var last := LaunchCamera(d, traces[d], t);
      EmittedByLaunches(traces, t, d, c);
      assert Launches(traces, t, n) == prev + last;
      EmittedByConcat(prev, last, c);
      EmittedByLaunchCamera(d, traces[d], t, c);
      if c < d {
        assert EmittedBy(prev, c) == traces[c] && EmittedBy(last, c) == [];
      } else if c == d {
        assert EmittedBy(prev, c) == [] && EmittedBy(last, c) == traces[c];
      } else {
        assert EmittedBy(prev, c) == [] && EmittedBy(last, c) == [];
      }
    }
  }

  /**
   * Independence of the cameras: what camera c's channels receive during `main` is
   * exactly what its own worker computes from its own grab outcomes; no other camera
   * and nothing else in the process contributes to it.
   */
  lemma CameraOutputIndependent(cameras: seq<Device>, reader: Reader, c: nat)
    requires FirstFailure(cameras) == |cameras| && c < |cameras|
    ensures EmittedBy(MainEvents(cameras, reader), c)
            == TraceOf(ConfiguredSkip(reader), c, ConfiguredSkip(reader), cameras[c].grabs)
  {
    var n := |cameras|;
    var traces := Traces(cameras, ConfiguredSkip(reader));
    var front := Startup(cameras, reader);
    var launches := Launches(traces, ConfiguredTemplates(reader), n);
    var back := Shutdown(n);
    MainEventsParts(cameras, reader);
    StartupShape(cameras, reader);
    ShutdownShape(n);
    EmittedByConcat(front + launches, back, c);
    EmittedByConcat(front, launches, c);
    EmittedByNone(front, c);
    EmittedByNone(back, c);
    EmittedByLaunches(traces, ConfiguredTemplates(reader), n, c);
  }

  /** Each camera advertises every channel, on that channel's template. */
  lemma AdvertisementsComplete(c: nat, t: Templates, ch: Channel)
    ensures Advertise(c, ch, StrFmt(Template(t, ch), c)) in Advertisements(c, t)
  {
    match ch
    case RawChannel => assert Advertisements(c, t)[0] == Advertise(c, ch, StrFmt(Template(t, ch), c));
    case RgbChannel => assert Advertisements(c, t)[1] == Advertise(c, ch, StrFmt(Template(t, ch), c));
    case TimeChannel => assert Advertisements(c, t)[2] == Advertise(c, ch, StrFmt(Template(t, ch), c));
    case AdditionChannel => assert Advertisements(c, t)[3] == Advertise(c, ch, StrFmt(Template(t, ch), c));
  }

  lemma {:induction false} AdvertisedInLaunches(traces: seq<seq<Publication>>, t: Templates, n: nat, c: nat)
    requires c < n <= |traces|
    ensures forall e | e in Advertisements(c, t) :: e in Launches(traces, t, n)
  {
    if c < n - 1 {
      AdvertisedInLaunches(traces, t, n - 1, c);
    }
  }

  /**
   * Topics: every publisher of camera i is advertised on its channel's template
   * formatted with i.
   */
  lemma AdvertisedTopics(cameras: seq<Device>, reader: Reader)
    requires FirstFailure(cameras) == |cameras|
    ensures forall e | e in MainEvents(cameras, reader) && e.Advertise? ::
              e.camera < |cameras| && e.topic == StrFmt(Template(ConfiguredTemplates(reader), e.channel), e.camera)
  {
    var n := |cameras|;
    var t := ConfiguredTemplates(reader);
    var front := Startup(cameras, reader);
    var launches := Launches(Traces(cameras, ConfiguredSkip(reader)), t, n);
    var back := Shutdown(n);
    MainEventsParts(cameras, reader);
    StartupShape(cameras, reader);
    ShutdownShape(n);
    TracesTagged(cameras, ConfiguredSkip(reader));
    LaunchesShape(Traces(cameras, ConfiguredSkip(reader)), t, n);
    forall e: Event | e in front + launches + back && e.Advertise?
      ensures e.camera < n && e.topic == StrFmt(Template(t, e.channel), e.camera)
    {
      assert e !in front && e !in back;
      assert LaunchFacts(e, t);
    }
  }

  /** Frame ids: every message a camera publishes carries that camera's frame_id. */
  lemma EmittedFrameIds(cameras: seq<Device>, reader: Reader)
    requires FirstFailure(cameras) == |cameras|
    ensures forall e | e in MainEvents(cameras, reader) && e.Emitted? ::
              e.camera < |cameras| && e.pub.msg.header.frameId == FrameId(e.camera)
  {
    var n := |cameras|;
    var t := ConfiguredTemplates(reader);
    var front := Startup(cameras, reader);
    var launches := Launches(Traces(cameras, ConfiguredSkip(reader)), t, n);
    var back := Shutdown(n);
    MainEventsParts(cameras, reader);
    StartupShape(cameras, reader);
    ShutdownShape(n);
    TracesTagged(cameras, ConfiguredSkip(reader));
    LaunchesShape(Traces(cameras, ConfiguredSkip(reader)), t, n);
    forall e: Event | e in front + launches + back && e.Emitted?
      ensures e.camera < n && e.pub.msg.header.frameId == FrameId(e.camera)
    {
      assert e !in front && e !in back;
      assert LaunchFacts(e, t);
    }
  }

  /** Every camera gets a publisher on each of the four channels. */
  lemma AllChannelsAdvertised(cameras: seq<Device>, reader: Reader)
    requires FirstFailure(cameras) == |cameras|
    ensures forall c, ch :: 0 <= c < |cameras| ==>
              Advertise(c, ch, StrFmt(Template(ConfiguredTemplates(reader), ch), c)) in MainEvents(cameras, reader)
  {
    var n := |cameras|;
    var traces := Traces(cameras, ConfiguredSkip(reader));
    var t := ConfiguredTemplates(reader);
    MainEventsParts(cameras, reader);
    forall c, ch | 0 <= c < n
      ensures Advertise(c, ch, StrFmt(Template(t, ch), c)) in Launches(traces, t, n)
    {
      AdvertisedInLaunches(traces, t, n, c);
      AdvertisementsComplete(c, t, ch);
    }
  }
}
