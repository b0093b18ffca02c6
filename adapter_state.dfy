/** The state of the Vulkan render-manager adapter as a value, the effect of
    each of its operations on that value, and what holds of every sequence
    of calls. The class in module RenderManagerVulkan keeps these fields and
    OpenDisplay and GetTimingInfo are proved against the functions here. */
module AdapterState {
  import opened WindowGeometry

  /** An SDL window pointer; window creation is not implemented, so nothing
      ever stores a non-null one. */
  datatype WindowHandle = Null | Window(id: nat)

  /** Per-display rendering objects; for now only the window. */
  datatype DisplayInfo = DisplayInfo(window: WindowHandle)

  /** A default-constructed DisplayInfo: its window pointer starts out null. */
  const NewDisplayInfo: DisplayInfo := DisplayInfo(Null)

  /** The graphics-library bundle handed to the application. */
  datatype GraphicsLibrary = NoLibrary | VulkanLibrary

  datatype OpenStatus = Complete | Failure

  /** Outcome of OpenDisplay: a status and the library bundle. */
  datatype OpenResults = OpenResults(status: OpenStatus, library: GraphicsLibrary)

  /** Seconds and microseconds. */
  datatype TimeValue = TimeValue(seconds: int, microseconds: int)

  /** The timing report filled in by GetTimingInfo. */
  datatype TimingInfo = TimingInfo(
    hardwareDisplayInterval: TimeValue,
    timeSinceLastVerticalRetrace: TimeValue,
    timeUntilNextPresentRequired: TimeValue)

  /** A value-initialised timing report: every field zero. */
  const ZeroTimingInfo: TimingInfo :=
    TimingInfo(TimeValue(0, 0), TimeValue(0, 0), TimeValue(0, 0))

  /** The session configuration the adapter is constructed with. */
  datatype ConstructorParameters = ConstructorParameters(
    windowTitle: string,
    windowXPosition: int,
    displayRotation: DisplayRotation,
    windowFullScreen: bool)

  /** What the base RenderManager supplies and never changes during a
      session: the display and eye counts, the display size, the constructor
      parameters, and the value a default-constructed OpenResults has. */
  datatype Config = Config(
    numDisplays: nat,
    numEyes: nat,
    displayWidth: int,
    displayHeight: int,
    params: ConstructorParameters,
    defaultResults: OpenResults)

  /** The mutable state: the base class's okay flag, whether the display is
      open, and the list of per-display objects. */
  datatype AdapterState = AdapterState(
    doingOkay: bool,
    displayOpen: bool,
    displays: seq<DisplayInfo>)

  predicate AllWindowsNull(displays: seq<DisplayInfo>) {
    forall i | 0 <= i < |displays| :: displays[i].window == Null
  }

  /** The window loop of OpenDisplay from display `display` on, as the code
      has it: push a new DisplayInfo, check the window of entry `display`,
      and fail on a null window; once every display is done, mark the
      display open and hand back the library. */
  function OpenLoop(s: AdapterState, cfg: Config, library: GraphicsLibrary, display: nat)
    : (AdapterState, OpenResults)
    requires display <= |s.displays|
    decreases cfg.numDisplays - display
  {
    if display >= cfg.numDisplays then
      (s.(displayOpen := true), cfg.defaultResults.(library := library))
    else
      var s' := s.(displays := s.displays + [NewDisplayInfo]);
      if s'.displays[display].window == Null then
        (s'.(doingOkay := false), cfg.defaultResults.(status := Failure))
      else
        OpenLoop(s', cfg, library, display + 1)
  }

  /** The new state and the result of one OpenDisplay call. */
  function OpenDisplayEffect(s: AdapterState, cfg: Config, library: GraphicsLibrary)
    : (AdapterState, OpenResults)
  {
    OpenLoop(s, cfg, library, 0)
  }

  /** Whatever happens inside the loop, it only appends null-window entries,
      never clears earlier ones, never sets the okay flag and never closes
      the display. */
  lemma {:induction false} OpenLoopOnlyAppends(s: AdapterState, cfg: Config, library: GraphicsLibrary, display: nat)
    requires display <= |s.displays|
    ensures var r := OpenLoop(s, cfg, library, display).0;
      s.displays <= r.displays
      && AllWindowsNull(r.displays[|s.displays|..])
      && (r.doingOkay ==> s.doingOkay)
      && (s.displayOpen ==> r.displayOpen)
    decreases cfg.numDisplays - display
  {
    if display < cfg.numDisplays {
      var s' := s.(displays := s.displays + [NewDisplayInfo]);
      if s'.displays[display].window != Null {
        OpenLoopOnlyAppends(s', cfg, library, display + 1);
        var r := OpenLoop(s', cfg, library, display + 1).0;
        assert r.displays[|s.displays|..] == [NewDisplayInfo] + r.displays[|s'.displays|..];
      }
    }
  }

  /** What one OpenDisplay call actually does while no window has been
      created: with no displays it opens and returns the library; otherwise
      the null check trips on the first display, so it appends exactly one
      entry, clears the okay flag, returns a failure and leaves the open
      flag alone. */
  lemma OpenDisplayOutcome(s: AdapterState, cfg: Config, library: GraphicsLibrary)
    requires AllWindowsNull(s.displays)
    ensures var (r, ret) := OpenDisplayEffect(s, cfg, library);
      if cfg.numDisplays == 0 then
        r == AdapterState(s.doingOkay, true, s.displays)
        && ret == OpenResults(cfg.defaultResults.status, library)
      else
        r == AdapterState(false, s.displayOpen, s.displays + [NewDisplayInfo])
        && ret == OpenResults(Failure, cfg.defaultResults.library)
  {
    if cfg.numDisplays > 0 {
      var ds := s.displays + [NewDisplayInfo];
      assert ds[0].window == Null by {
        if |s.displays| > 0 {
          assert ds[0] == s.displays[0];
        }
      }
    }
  }

  /** GetTimingInfo as the code has it: the okay flag, then the eye index,
      then whether the display is open; only the third failure zeroes the
      report. Returns the success flag and the report afterwards. */
  function TimingInfoResult(s: AdapterState, cfg: Config, whichEye: nat, info: TimingInfo)
    : (bool, TimingInfo)
  {
    if !s.doingOkay then (false, info)
    else if whichEye >= cfg.numEyes then (false, info)
    else if !s.displayOpen then (false, ZeroTimingInfo)
    else (true, info)
  }

  /** The public entry points of the adapter, as a caller issues them. */
  datatype Call =
    | OpenDisplayCall
    | PresentDisplayInitializeCall(display: nat)
    | PresentDisplayFinalizeCall(display: nat)
    | PresentFrameFinalizeCall
    | SolidColorEyeCall(eye: nat)
    | GetTimingInfoCall(eye: nat)
    | RenderFrameInitializeCall
    | RenderDisplayInitializeCall(display: nat)
    | RenderEyeFinalizeCall(eye: nat)
    | RenderDisplayFinalizeCall(display: nat)

  /** The state after one call: only OpenDisplay changes the adapter; the
      present, render and timing entry points leave it as it is. */
  function Step(s: AdapterState, cfg: Config, library: GraphicsLibrary, call: Call): AdapterState {
    match call
    case OpenDisplayCall => OpenDisplayEffect(s, cfg, library).0
    case _ => s
  }

  /** The state after a sequence of calls, issued one after the other. */
  function Run(s: AdapterState, cfg: Config, library: GraphicsLibrary, calls: seq<Call>): AdapterState
    decreases |calls|
  {
    if calls == [] then s else Run(Step(s, cfg, library, calls[0]), cfg, library, calls[1..])
  }

  /** The number of OpenDisplay calls in a sequence of calls. */
  function OpenCalls(calls: seq<Call>): nat
    decreases |calls|
  {
    if calls == [] then 0
    else (if calls[0] == OpenDisplayCall then 1 else 0) + OpenCalls(calls[1..])
  }

  /** No sequence of calls creates a window: every DisplayInfo keeps its null
      window pointer. */
  lemma {:induction false} WindowsStayNull(s: AdapterState, cfg: Config, library: GraphicsLibrary, calls: seq<Call>)
    requires AllWindowsNull(s.displays)
    ensures AllWindowsNull(Run(s, cfg, library, calls).displays)
    decreases |calls|
  {
    if calls != [] {
      var s1 := Step(s, cfg, library, calls[0]);
      if calls[0] == OpenDisplayCall {
        OpenDisplayOutcome(s, cfg, library);
      }
      WindowsStayNull(s1, cfg, library, calls[1..]);
    }
  }

  /** The display list is never cleared: every earlier list is a prefix of
      every later one. */
  lemma {:induction false} DisplaysOnlyGrow(s: AdapterState, cfg: Config, library: GraphicsLibrary, calls: seq<Call>)
    ensures s.displays <= Run(s, cfg, library, calls).displays
    decreases |calls|
  {
    if calls != [] {
      var s1 := Step(s, cfg, library, calls[0]);
      if calls[0] == OpenDisplayCall {
        OpenLoopOnlyAppends(s, cfg, library, 0);
      }
      DisplaysOnlyGrow(s1, cfg, library, calls[1..]);
    }
  }

  /** With at least one display configured, each OpenDisplay call appends
      exactly one DisplayInfo; with none, the list never changes. */
  lemma {:induction false} DisplayCountFollowsOpenCalls(s: AdapterState, cfg: Config, library: GraphicsLibrary, calls: seq<Call>)
    requires AllWindowsNull(s.displays)
    ensures |Run(s, cfg, library, calls).displays|
         == |s.displays| + (if cfg.numDisplays == 0 then 0 else OpenCalls(calls))
    decreases |calls|
  {
    if calls != [] {
      var s1 := Step(s, cfg, library, calls[0]);
      if calls[0] == OpenDisplayCall {
        OpenDisplayOutcome(s, cfg, library);
      }
      assert AllWindowsNull(s1.displays) by {
        WindowsStayNull(s, cfg, library, [calls[0]]);
        assert Run(s1, cfg, library, []) == s1;
      }
      DisplayCountFollowsOpenCalls(s1, cfg, library, calls[1..]);
    }
  }

  /** The okay flag is sticky: once false, no sequence of calls sets it back. */
  lemma {:induction false} NotOkayIsSticky(s: AdapterState, cfg: Config, library: GraphicsLibrary, calls: seq<Call>)
    requires !s.doingOkay
    ensures !Run(s, cfg, library, calls).doingOkay
    decreases |calls|
  {
    if calls != [] {
      var s1 := Step(s, cfg, library, calls[0]);
      if calls[0] == OpenDisplayCall {
        OpenLoopOnlyAppends(s, cfg, library, 0);
      }
      NotOkayIsSticky(s1, cfg, library, calls[1..]);
    }
  }

  /** With at least one display configured, no sequence of calls changes
      whether the display is open: OpenDisplay never reaches the line that
      opens it. */
  lemma {:induction false} DisplayOpenNeverChanges(s: AdapterState, cfg: Config, library: GraphicsLibrary, calls: seq<Call>)
    requires cfg.numDisplays >= 1
    requires AllWindowsNull(s.displays)
    ensures Run(s, cfg, library, calls).displayOpen == s.displayOpen
    decreases |calls|
  {
    if calls != [] {
      var s1 := Step(s, cfg, library, calls[0]);
      if calls[0] == OpenDisplayCall {
        OpenDisplayOutcome(s, cfg, library);
      }
      DisplayOpenNeverChanges(s1, cfg, library, calls[1..]);
    }
  }

  /** After a failed OpenDisplay, GetTimingInfo fails for every eye whatever
      calls come in between, and it leaves the caller's report untouched. */
  lemma TimingFailsAfterFailedOpen(
    s: AdapterState, cfg: Config, library: GraphicsLibrary,
    calls: seq<Call>, whichEye: nat, info: TimingInfo)
    requires cfg.numDisplays >= 1
    requires AllWindowsNull(s.displays)
    ensures OpenDisplayEffect(s, cfg, library).1.status == Failure
    ensures var later := Run(OpenDisplayEffect(s, cfg, library).0, cfg, library, calls);
      TimingInfoResult(later, cfg, whichEye, info) == (false, info)
  {
    OpenDisplayOutcome(s, cfg, library);
    NotOkayIsSticky(OpenDisplayEffect(s, cfg, library).0, cfg, library, calls);
  }
}
