/**
 * The `Gl` object of src/main.rs as the render callbacks see it: the resize
 * state it shares with the window procedure, the EGL surface slot `surface`,
 * and the effects of the foreign calls those callbacks make, recorded as
 * fields (sizes given to the root visual and the composition surface, EGL
 * surfaces created and destroyed, draws begun and ended, commits and DWM
 * flushes).
 */
module GlSurface {
  import opened Wrappers
  import opened ResizeSync

  /** An EGL surface handle; `create_pbuffer_from_client_buffer` yields fresh ones. */
  type SurfaceId = nat

  class Gl {
    var resizeState: ResizeState
    var surface: Option<SurfaceId>

    // Abstract effects of EGL, Windows Composition and DWM.
    var nextSurface: SurfaceId         // the handle the next created EGL surface gets
    var liveSurfaces: set<SurfaceId>   // EGL surfaces created and not yet destroyed
    var drawOpen: bool                 // `BeginDraw` on the composition surface without `EndDraw`
    var visualWidth: nat
    var visualHeight: nat
    var visualOffsetY: nat
    var targetWidth: nat               // size of the composition drawing surface
    var targetHeight: nat
    var commits: nat                   // `Commit` calls on the compositor controller
    var dwmFlushes: nat                // `DwmFlush` calls

    /** Every live surface was handed out, and the surface in the slot is live
      * and belongs to an open draw. */
    ghost predicate Valid()
      reads this
    {
      && (forall id :: id in liveSurfaces ==> id < nextSurface)
      && (surface.Some? ==> surface.value in liveSurfaces && drawOpen)
    }

    /** EGL surfaces still alive that the slot no longer refers to: nothing will
      * ever destroy them. */
    ghost function Leaked(): set<SurfaceId>
      reads this
    {
      liveSurfaces - (if surface.Some? then {surface.value} else {})
    }

    /** Start-up: root visual and composition surface at the window's size, no
      * EGL surface, and the resize state `Done`. */
    constructor (width: nat, height: nat)
      ensures Valid()
      ensures resizeState == Done && WaiterReleased(resizeState)
      ensures surface == None && liveSurfaces == {} && nextSurface == 0 && !drawOpen
      ensures visualWidth == width && visualHeight == height && visualOffsetY == height
      ensures targetWidth == width && targetHeight == height
      ensures commits == 0 && dwmFlushes == 0
    {
      resizeState := Done;
      surface := None;
      nextSurface := 0;
      liveSurfaces := {};
      drawOpen := false;
      visualWidth, visualHeight, visualOffsetY := width, height, height;
      targetWidth, targetHeight := width, height;
      commits, dwmFlushes := 0, 0;
    }

    /** `wnd_proc` on `WM_NCCALCSIZE`. An accepted resize leaves the state
      * `Started` with the rect's size, so the UI thread then blocks in
      * `wait_while`; a rejected one touches nothing. */
    method OnNcCalcSize(hasWindowData: bool, rect: Rect)
      modifies this`resizeState
      ensures resizeState == OnResize(old(resizeState), hasWindowData, rect)
      ensures AcceptsResize(hasWindowData, rect) ==>
                resizeState == Started(rect.right - rect.left, rect.bottom - rect.top)
                && !WaiterReleased(resizeState)
      ensures !AcceptsResize(hasWindowData, rect) ==> resizeState == old(resizeState)
    {
      if hasWindowData && rect.right > rect.left && rect.bottom > rect.top {
        resizeState := Started(WrappingDistance(rect.right, rect.left),
                               WrappingDistance(rect.bottom, rect.top));
      }
    }

    /** `gl_fbo_callback`: apply a pending resize to the visual and the
      * composition surface, begin a draw, put a fresh EGL surface in the slot
      * (whatever it held before) and return framebuffer 0. */
    method FboCallback() returns (fbo: nat)
      requires Valid()
      modifies this
      ensures Valid()
      ensures fbo == 0
      ensures resizeState == FboNext(old(resizeState))
      ensures old(resizeState).Started? ==>
                && visualWidth == old(resizeState).width && visualHeight == old(resizeState).height
                && visualOffsetY == old(resizeState).height
                && targetWidth == old(resizeState).width && targetHeight == old(resizeState).height
      ensures !old(resizeState).Started? ==>
                && visualWidth == old(visualWidth) && visualHeight == old(visualHeight)
                && visualOffsetY == old(visualOffsetY)
                && targetWidth == old(targetWidth) && targetHeight == old(targetHeight)
      ensures surface == Some(old(nextSurface)) && old(nextSurface) !in old(liveSurfaces)
      ensures liveSurfaces == old(liveSurfaces) + {old(nextSurface)}
      ensures nextSurface == old(nextSurface) + 1 && drawOpen
      ensures commits == old(commits) && dwmFlushes == old(dwmFlushes)
    {
      if resizeState.Started? {
        var width, height := resizeState.width, resizeState.height;
        visualWidth, visualHeight := width, height;
        visualOffsetY := height;
        targetWidth, targetHeight := width, height;
        resizeState := FrameGenerated;
      }
      drawOpen := true;
      var created := nextSurface;
      nextSurface := nextSurface + 1;
      liveSurfaces := liveSurfaces + {created};
      surface := Some(created);
      fbo := 0;
    }

    /** `present_frame`: destroy the EGL surface in the slot, end the draw,
      * optionally flush DWM, and commit. The slot itself is left as it is. */
    method PresentFrame(syncDwm: bool)
      requires Valid() && surface.Some?
      modifies this`liveSurfaces, this`drawOpen, this`commits, this`dwmFlushes
      ensures liveSurfaces == old(liveSurfaces) - {surface.value}
      ensures !drawOpen && commits == old(commits) + 1
      ensures dwmFlushes == old(dwmFlushes) + (if syncDwm then 1 else 0)
    {
      liveSurfaces := liveSurfaces - {surface.value};
      drawOpen := false;
      if syncDwm {
        dwmFlushes := dwmFlushes + 1;
      }
      commits := commits + 1;
    }

    /** `gl_present`. During a resize (`Started`) it refuses and changes
      * nothing, not even the surface slot. Otherwise it presents (with a DWM
      * flush exactly when leaving `FrameGenerated`, which also moves to `Done`
      * and releases the waiter), empties the slot and succeeds. Presenting
      * with an empty slot aborts the process, hence the second requires. */
    method PresentCallback() returns (ok: bool)
      requires Valid()
      requires resizeState.Started? || surface.Some?
      modifies this
      ensures Valid()
      ensures ok <==> !old(resizeState).Started?
      ensures !ok ==> && resizeState == old(resizeState) && surface == old(surface)
                      && liveSurfaces == old(liveSurfaces) && drawOpen == old(drawOpen)
                      && commits == old(commits) && dwmFlushes == old(dwmFlushes)
      ensures ok ==> && resizeState == PresentNext(old(resizeState)) && WaiterReleased(resizeState)
                     && surface == None
                     && liveSurfaces == old(liveSurfaces) - {old(surface).value}
                     && !drawOpen && commits == old(commits) + 1
                     && dwmFlushes == old(dwmFlushes) + (if old(resizeState).FrameGenerated? then 1 else 0)
      ensures nextSurface == old(nextSurface)
      ensures visualWidth == old(visualWidth) && visualHeight == old(visualHeight)
      ensures visualOffsetY == old(visualOffsetY)
      ensures targetWidth == old(targetWidth) && targetHeight == old(targetHeight)
    {
      match PresentDecision(resizeState)
      case Refused =>
        return false;
      case Presented(syncDwm) =>
        PresentFrame(syncDwm);
        if syncDwm {
          resizeState := Done;
        }
      surface := None;
      ok := true;
    }
  }

  /** One resize, as described for the embedder: the window grows from 800x600
    * to 1024x768 between two frames; the framebuffer request resizes the
    * composition surface and the present flushes DWM and releases the UI thread. */
  method ResizeScenario()
  {
    var gl := new Gl(800, 600);
    var fbo := gl.FboCallback();
    var ok := gl.PresentCallback();
    assert ok && gl.resizeState == Done && gl.commits == 1 && gl.dwmFlushes == 0;

    gl.OnNcCalcSize(true, Rect(0, 0, 1024, 768));
    assert gl.resizeState == Started(1024, 768) && !WaiterReleased(gl.resizeState);

    fbo := gl.FboCallback();
    assert gl.targetWidth == 1024 && gl.targetHeight == 768 && gl.visualOffsetY == 768;
    assert gl.resizeState == FrameGenerated && !WaiterReleased(gl.resizeState);

    ok := gl.PresentCallback();
    assert ok && gl.resizeState == Done && WaiterReleased(gl.resizeState);
    assert gl.dwmFlushes == 1 && gl.commits == 2 && gl.Leaked() == {};
  }

  /** What the code does when a resize arrives between a framebuffer request
    * and its present: the present is refused and keeps the slot, the next
    * framebuffer request overwrites it, and the first EGL surface is never
    * destroyed. */
  method RefusedPresentScenario()
  {
    var gl := new Gl(800, 600);
    var fbo := gl.FboCallback();
    assert gl.surface == Some(0);

    gl.OnNcCalcSize(true, Rect(0, 0, 1024, 768));
    var ok := gl.PresentCallback();
    assert !ok && gl.surface == Some(0) && gl.drawOpen && gl.commits == 0;

    fbo := gl.FboCallback();
    assert gl.surface == Some(1) && gl.resizeState == FrameGenerated;
    assert 0 in gl.Leaked();

    ok := gl.PresentCallback();
    assert ok && WaiterReleased(gl.resizeState) && gl.Leaked() == {0};
  }
}
