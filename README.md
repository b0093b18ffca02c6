# Vulkan render-manager adapter: a verified model

This project models the control skeleton of the Vulkan backend of OSVR
RenderManager (`RenderManagerVulkan`). That backend plugs a GPU API into the
head-mounted-display rendering pipeline. In the code as written, nearly all
of the GPU and windowing work is still a placeholder. What is left is:

- the adapter's state: the base class's "doing okay" flag, the
  "display open" flag, and the list of per-display `DisplayInfo` objects,
  each holding a window pointer that starts out null;
- `OpenDisplay`. It computes the rotated window size and, for each
  display, the window title and X position. It appends a `DisplayInfo` per
  display. It then checks that display's window pointer. The call that
  would create the window is commented out, so with one or more displays the
  check fails on the first display: the adapter is marked not okay and
  `Failure` is returned. With zero displays the display is marked open and
  the library bundle is returned;
- the present hooks (`PresentDisplayInitialize`/`Finalize` bound-check the
  display index; `PresentFrameFinalize` and `SolidColorEye` always succeed)
  and the inline render hooks, which always succeed;
- `GetTimingInfo`. It checks, in this order, the okay flag, the eye index
  and the open flag. Only the "display not open" failure zeroes the
  caller's report.

Layout:

- `window_geometry.dfy`, module `WindowGeometry`: the rotation datatype,
  the rotated size, the tiling X position and the per-display title, with
  an explicit 8-bit wrap of the appended character.
- `adapter_state.dfy`, module `AdapterState`: the state as a value, and
  `OpenLoop`, a recursive function that follows the window loop branch by
  branch. It also holds the timing query as a function and a model of any
  sequence of calls (`Run`), with lemmas about all such sequences: the okay
  flag is sticky, the display list only grows, no window is ever created,
  and after a failed open every timing query fails.
- `render_manager_vulkan.dfy`, module `RenderManagerVulkan`: the class,
  with the fields the C++ object updates. `OpenDisplay` is proved against
  `AdapterState.OpenDisplayEffect` and `GetTimingInfo` against
  `AdapterState.TimingInfoResult`; the constructor and `Destroy` state
  their effect on the fields directly.

The base-class queries (`GetNumDisplays`, `GetNumEyes`, `m_displayWidth`,
`m_displayHeight`, `m_params`) and the value of a default-constructed
`OpenResults` are fixed per session. They are the `Config` value the object
is constructed with. The okay flag's initial value is set by the base
constructor and is a constructor parameter.

The model follows the code as written, where much is still marked as
pending work:

- With one or more displays, `OpenDisplay` always returns `Failure`: the
  call that would create each window is commented out
  (RenderManagerVulkan.cpp:124-129) and the window pointer of a new
  `DisplayInfo` is null, so the null check at RenderManagerVulkan.cpp:130
  fails on the first display.
- `PresentFrameFinalize` always returns true; its event handling is a
  `@todo` (RenderManagerVulkan.cpp:203-204).
- On success, `GetTimingInfo` does not fill in the report; the look-up of
  the display and its timing are `@todo`s (RenderManagerVulkan.cpp:247-261).

The window loop checks `m_displays[display]`, the entry at the display
index, not the entry it just appended. On a second call these differ. The
model keeps that indexing; since every window pointer is null either way,
the outcome is the same.

## Model

| member | source | states |
|---|---|---|
| WindowGeometry.RotatedSizeSwapsForQuarterTurns | osvr/RenderKit/RenderManagerVulkan.cpp:95-105 | for a Ninety or TwoSeventy rotation the window is (display height, display width); for every other rotation it is (display width, display height) |
| WindowGeometry.RotatedSizeIsInvolution | osvr/RenderKit/RenderManagerVulkan.cpp:95-105 | applying the rotation swap to its own result gives back the display size, and the pixel count is unchanged |
| WindowGeometry.WindowXTilesAdjacent | osvr/RenderKit/RenderManagerVulkan.cpp:117-122 | display 0's window is at the configured X position, and each next display's window starts one rotated width to the right |
| WindowGeometry.WindowsDoNotOverlap | osvr/RenderKit/RenderManagerVulkan.cpp:117-122 | for a non-negative rotated width, a later display's window starts at or after the right edge of an earlier display's window |
| WindowGeometry.WindowTitleEndsInDigit | osvr/RenderKit/RenderManagerVulkan.cpp:113-116 | for display index below 10 the title is the configured title followed by one character, the decimal digit of the index |
| WindowGeometry.WindowTitlesDistinct | osvr/RenderKit/RenderManagerVulkan.cpp:115-116 | display indices below 256 that differ give different window titles |
| WindowGeometry.WindowTitleWrapsAt256 | osvr/RenderKit/RenderManagerVulkan.cpp:115 | the appended character is computed in 8 bits, so displays d and d + 256 get the same title |
| AdapterState.OpenLoopOnlyAppends | osvr/RenderKit/RenderManagerVulkan.cpp:108-135 | from any state, the window loop keeps the old display list as a prefix, appends only null-window entries, never sets the okay flag and never closes the display |
| AdapterState.OpenDisplayOutcome | osvr/RenderKit/RenderManagerVulkan.cpp:65-173 | while no window exists: with zero displays, the display becomes open, the list and okay flag are unchanged, and the result carries the library; otherwise exactly one null-window entry is appended, the okay flag is cleared, the open flag is unchanged and the status is Failure |
| AdapterState.WindowsStayNull | osvr/RenderKit/RenderManagerVulkan.h:58-64 | after any sequence of calls every DisplayInfo still has a null window pointer |
| AdapterState.DisplaysOnlyGrow | osvr/RenderKit/RenderManagerVulkan.cpp:108-111 | after any sequence of calls the earlier display list is a prefix of the later one: entries are never cleared |
| AdapterState.DisplayCountFollowsOpenCalls | osvr/RenderKit/RenderManagerVulkan.cpp:108-135 | with at least one display, the list grows by exactly one entry per OpenDisplay call in the sequence; with zero displays it never grows |
| AdapterState.NotOkayIsSticky | osvr/RenderKit/RenderManagerVulkan.cpp:74-78 | once the okay flag is false, no sequence of calls sets it back to true |
| AdapterState.DisplayOpenNeverChanges | osvr/RenderKit/RenderManagerVulkan.cpp:130-170 | with at least one display, no sequence of calls changes the open flag, because the failure return always comes before it is set |
| AdapterState.TimingFailsAfterFailedOpen | osvr/RenderKit/RenderManagerVulkan.cpp:223-227 | with at least one display, OpenDisplay returns Failure; after it, whatever calls follow, GetTimingInfo returns false for every eye and leaves the report as it was |
| RenderManagerVulkan.RenderManagerVulkan.constructor | osvr/RenderKit/RenderManagerVulkan.cpp:39-51 | a new adapter has the display closed, no DisplayInfo entries, the library bundle allocated, and the okay flag the base class set |
| RenderManagerVulkan.RenderManagerVulkan.Destroy | osvr/RenderKit/RenderManagerVulkan.cpp:53-63 | teardown clears the open flag and changes nothing else |
| RenderManagerVulkan.RenderManagerVulkan.OpenDisplay | osvr/RenderKit/RenderManagerVulkan.cpp:65-173 | the new state and result are those of the loop model; no window is created; with zero displays it opens the display and returns the library; otherwise it appends exactly one entry, clears the okay flag, leaves the open flag unchanged and returns Failure |
| RenderManagerVulkan.RenderManagerVulkan.PresentChecksDisplayBound | osvr/RenderKit/RenderManagerVulkan.cpp:175-200 | PresentDisplayInitialize and PresentDisplayFinalize succeed exactly when the display index is below the number of displays |
| RenderManagerVulkan.RenderManagerVulkan.PresentFrameAndSolidColorSucceed | osvr/RenderKit/RenderManagerVulkan.cpp:202-216 | PresentFrameFinalize and SolidColorEye succeed for every eye |
| RenderManagerVulkan.RenderManagerVulkan.RenderHooksAlwaysSucceed | osvr/RenderKit/RenderManagerVulkan.h:68-71 | the four render hooks succeed for every display and eye index; for a display past the last one the present hooks fail where the render hooks succeed |
| RenderManagerVulkan.RenderManagerVulkan.GetTimingInfo | osvr/RenderKit/RenderManagerVulkan.cpp:218-265 | returns true exactly when the adapter is okay, the eye index is below the number of eyes and the display is open; the report is zeroed only when the first two checks pass and the display is not open, and otherwise is returned unchanged |

## Left out

- The mutex in `OpenDisplay` and the lock-free note on `GetTimingInfo`: concurrency. Every call is modelled as sequential.
- Logging through `m_log`: output only, with no effect on state.
- All SDL and Vulkan work. This covers window flags and the fullscreen branch, window creation, drawable size, render targets, surface sync, vblank present and event pumping. None of it exists in the code, and the window-creation call is commented out. The title and X position are computed in `OpenDisplay` but not used.
- GPU instance creation, buffer construction, timing output, the quit-event failure of `PresentFrameFinalize` and callback dispatch. These are not implemented in the code.
- The colour argument of `SolidColorEye`: floating point, and unused. Its call to `GetDisplayUsedByEye` is a base-class query whose result is unused.
- The `slackRequired` value in `GetTimingInfo`: computed but never used.
- The default status and library of an `OpenResults`, and the `Display_Rotation` enumeration. Both are declared in RenderManager.h, which is not part of this model. The default result is a configuration value. The rotation has the four values Zero, Ninety, OneEighty and TwoSeventy; only Ninety and TwoSeventy are tested by the code.
- The layout of `OSVR_RenderTimingInfo` is declared outside the files modelled. It is modelled as three seconds-and-microseconds values, and value-initialisation sets all of them to zero.
- `m_buffers`, set in the constructor: no modelled operation reads it.
- WindowGeometry.WindowX: uses mathematical integers. It does not model the `size_t` arithmetic and `int` cast, which wrap only for positions outside the 32-bit range.
- The base class's own changes to the okay flag: the model assumes only this adapter's operations change it, through `setDoingOkay(false)`.
- osvr/RenderKit/GraphicsLibraryVulkan.h holds only empty placeholder classes. Its library bundle is the single value `VulkanLibrary`.
