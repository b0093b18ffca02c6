/** The Vulkan render-manager adapter as an object: the construction and
    teardown of its state, the display-opening loop, the per-display and
    per-frame present and render hooks, and the timing query. */
module RenderManagerVulkan {
  import opened WindowGeometry
  import opened AdapterState

  class RenderManagerVulkan {
    /** What the base RenderManager supplies: display and eye counts, the
        display size, the constructor parameters, the default OpenResults. */
    const config: Config
    /** The library bundle the constructor allocates. */
    const library: GraphicsLibrary

    /** The base class's "doing okay" flag, cleared through setDoingOkay. */
    var doingOkay: bool
    /** Whether OpenDisplay has marked the display open. */
    var displayOpen: bool
    /** One entry per display, appended by OpenDisplay. */
    var displays: seq<DisplayInfo>

    /** The fields as one value. */
    function State(): AdapterState
      reads this
    {
      AdapterState(doingOkay, displayOpen, displays)
    }

    /** The object invariant: no window has been created. */
    ghost predicate Valid()
      reads this
    {
      AllWindowsNull(displays)
    }

    /** Construction: the base class has settled the okay flag; the display
        starts closed and the library bundle is allocated. */
    constructor (config: Config, doingOkay: bool)
      ensures Valid()
      ensures this.config == config && library == VulkanLibrary
      ensures State() == AdapterState(doingOkay, false, [])
    {
      this.config := config;
      this.doingOkay := doingOkay;
      displayOpen := false;
      displays := [];
      library := VulkanLibrary;
    }

    /** Teardown: window destruction is not implemented, so the walk over
        the displays does nothing and only the open flag is cleared. */
    method Destroy()
      modifies this
      ensures !displayOpen
      ensures displays == old(displays) && doingOkay == old(doingOkay)
    {
      for i := 0 to |displays| {
        if displays[i].window != Null {
          // destroying the window is not implemented
        }
      }
      if displayOpen {
        displayOpen := false;
      }
    }

    /** Opens one window per display; since no window is ever created, the
        null check fails on the first display when there is one. */
    method OpenDisplay() returns (ret: OpenResults)
      modifies this
      ensures (State(), ret) == OpenDisplayEffect(old(State()), config, library)
      ensures old(Valid()) ==> Valid()
      ensures config.numDisplays == 0 ==>
        displayOpen && displays == old(displays) && doingOkay == old(doingOkay)
        && ret == OpenResults(config.defaultResults.status, library)
      ensures config.numDisplays >= 1 && old(Valid()) ==>
        displays == old(displays) + [NewDisplayInfo] && !doingOkay
        && displayOpen == old(displayOpen)
        && ret.status == Failure
    {
      ghost var s0 := State();
      if AllWindowsNull(s0.displays) {
        OpenDisplayOutcome(s0, config, library);
      }
      ret := config.defaultResults;

      var size := RotatedSize(config.params.displayRotation, config.displayWidth, config.displayHeight);
      var widthRotated := size.width;

      for display := 0 to config.numDisplays
        invariant |displays| == |s0.displays| + display
        invariant OpenLoop(State(), config, library, display) == OpenLoop(s0, config, library, 0)
        invariant ret == config.defaultResults
      {
        displays := displays + [NewDisplayInfo];
        // The title and position of the window; the call that would create
        // the window from them is not implemented.
        var windowTitle := WindowTitle(config.params.windowTitle, display);
        var windowX := WindowX(config.params.windowXPosition, widthRotated, display);
        if displays[display].window == Null {
          doingOkay := false;
          ret := ret.(status := Failure);
          return;
        }
      }

      displayOpen := true;
      ret := ret.(library := library);
    }

    function PresentDisplayInitialize(display: nat): bool {
      display < config.numDisplays
    }

    function PresentDisplayFinalize(display: nat): bool {
      display < config.numDisplays
    }

    function PresentFrameFinalize(): bool {
      true
    }

    function SolidColorEye(eye: nat): bool {
      true
    }

    function RenderFrameInitialize(): bool {
      true
    }

    function RenderDisplayInitialize(display: nat): bool {
      true
    }

    function RenderEyeFinalize(eye: nat): bool {
      true
    }

    function RenderDisplayFinalize(display: nat): bool {
      true
    }

    /** The present path accepts exactly the configured displays. */
    lemma PresentChecksDisplayBound(display: nat)
      ensures PresentDisplayInitialize(display) <==> display < config.numDisplays
      ensures PresentDisplayFinalize(display) <==> display < config.numDisplays
    {
    }

    /** Frame finalisation and the solid-colour fill always succeed. */
    lemma PresentFrameAndSolidColorSucceed(eye: nat)
      ensures PresentFrameFinalize() && SolidColorEye(eye)
    {
    }

    /** The render hooks succeed for every index, with no bounds check: for
        a display past the last one they succeed where the present hooks
        fail. */
    lemma RenderHooksAlwaysSucceed(display: nat, eye: nat)
      ensures RenderFrameInitialize() && RenderEyeFinalize(eye)
      ensures RenderDisplayInitialize(display) && RenderDisplayFinalize(display)
      ensures display >= config.numDisplays ==>
        !PresentDisplayInitialize(display) && !PresentDisplayFinalize(display)
    {
    }

    /** The timing query: on the checks' failure paths the report is kept,
        except that it is zeroed when only the display is not open; on
        success it is not filled in. */
    method GetTimingInfo(whichEye: nat, info: TimingInfo) returns (ok: bool, infoOut: TimingInfo)
      ensures (ok, infoOut) == TimingInfoResult(State(), config, whichEye, info)
      ensures ok <==> doingOkay && whichEye < config.numEyes && displayOpen
      ensures !doingOkay ==> infoOut == info
      ensures doingOkay && whichEye >= config.numEyes ==> infoOut == info
      ensures doingOkay && whichEye < config.numEyes && !displayOpen ==> infoOut == ZeroTimingInfo
      ensures ok ==> infoOut == info
    {
      infoOut := info;
      if !doingOkay {
        return false, infoOut;
      }
      if whichEye >= config.numEyes {
        return false, infoOut;
      }
      if !displayOpen {
        infoOut := ZeroTimingInfo;
        return false, infoOut;
      }
      return true, infoOut;
    }
  }
}
