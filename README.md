# fluyt: resize handshake, platform task pass and layer compositor in Dafny

This project models three small cores of the fluyt Flutter embedder for
Windows and proves what each one guarantees.

- **The resize handshake** (`src/main.rs`). The window procedure and the render
  callbacks share a `ResizeState` (`Started(w, h) | FrameGenerated | Done`)
  and the frame's EGL surface slot `surface`.
  - `resize.dfy` (module `ResizeSync`) gives each actor's effect as a pure
    transition. It proves properties of whole traces of events: the blocked
    UI thread is released only by a present that finds `FrameGenerated`.
  - `gl.dfy` (module `GlSurface`) is the `Gl` object as a class. Its fields
    are the state, the surface slot and the effects of the Windows
    Composition, EGL and DWM calls: sizes, live surfaces, open draw, commits
    and flushes. Its methods are `wnd_proc`'s `WM_NCCALCSIZE` branch,
    `gl_fbo_callback`, `present_frame` and `gl_present`. Each is proved
    against the `ResizeSync` transition functions.
- **The platform task pass** (`src/main.rs`, the event-loop closure),
  modelled in `tasks.dfy` (module `PlatformTasks`).
  - `RetainPass` is the `retain` loop with its wake-time accumulator. It is
    proved against the specification functions `Kept`, `Due` and `NextDelta`,
    whose properties are lemmas: partition, order kept, minimum, idempotence.
  - `PlatformLoop` holds the pending list and the control flow.
- **The layer compositor** (`flion/src/compositor.rs`), modelled in
  `compositor.dfy` (module `FlionCompositor`).
  - The leaked `CompositorFlutterLayer` pointers handed out as `user_data`
    are handles into an arena map.
  - The root visual's children are a sequence of visual ids, and
    `self.layers` is a sequence of `FlutterLayer` addresses.
  - `present_layers` is proved against `Close`, the specification of its
    first loop, and `LayerOrderChanged`, its change test.

`wrappers.dfy` holds the `Option` type.

## Behaviour worth knowing

- **Where `FrameGenerated` starts.** `gl_fbo_callback` itself moves
  `Started` to `FrameGenerated` (src/main.rs:743). So a present after one
  framebuffer request finds `FrameGenerated`, and that present is the one
  that moves to `Done` and releases the UI thread. `ResizeSync.FboNext`
  follows the code.
- **One waiter at a time.** Only `wnd_proc` on the UI thread writes `Started`
  (src/main.rs:488), and that thread then blocks in `wait_while` until the
  state is `Done` (src/main.rs:504-509). The render callbacks never move the
  state out of `Done`. So an accepted resize always finds `Done`, there is at
  most one waiter, and the state keeps to the cycle
  `Done → Started → FrameGenerated → Done`.
  - `ResizeSync.Run` takes any sequence of events. That includes sequences
    the code cannot produce, so what is proved about `Run` holds a fortiori
    for the code.
  - `ResizeSync.CycleUnderOneWaiter` proves the cycle for every sequence in
    which accepted resizes happen only while the waiter is released.
- **A refused present keeps the surface.** `gl_present` in `Started` returns
  `false` before `gl.surface = None` (src/main.rs:672, 683). The next
  `gl_fbo_callback` stores a fresh surface over it (src/main.rs:764), and
  nothing destroys the old one. `GlSurface.Gl.PresentCallback` states the
  refusal as written, and `GlSurface.RefusedPresentScenario` shows the
  surface ending in `Gl.Leaked()`.
- **A pass that empties the task list keeps the old deadline.** When nothing
  remains, the control flow is not touched (src/main.rs:461-463). A
  `WaitUntil` whose instant has already passed stays in place.
  `PlatformTasks.DueTasksScenario` shows it.
- **Which layers the change test compares.** `present_layers` compares
  `FlutterLayer` pointers, not backing-store handles, so
  `FlionCompositor.FlutterLayer` carries its own address.

Panics are modelled as preconditions. These are:
- `assert!` in `make_surface_current`;
- `assert_eq!` on the content type;
- `present_frame` with an empty slot.

Freeing a layer twice is also a precondition: a second
`collect_backing_store` runs `Box::from_raw` on freed memory
(flion/src/compositor.rs:210-211), which is undefined behaviour.
`CollectBackingStore` requires the handle to be live.

## Model

| member | source | states |
|---|---|---|
| ResizeSync.WrappingDistance | src/main.rs:488-491 | `(hi - lo) as u32` on `i32`s is below 2^32, and is the exact difference whenever `hi > lo` |
| ResizeSync.OnResize | src/main.rs:485-491 | the state becomes `Started(right-left, bottom-top)` exactly when there is window data and the rect has positive width and height; otherwise it is unchanged |
| ResizeSync.FboNext | src/main.rs:724-744 | `Started` moves to `FrameGenerated`, and only `Started` changes |
| ResizeSync.PresentDecision | src/main.rs:671-681 | the present is refused exactly in `Started`; it flushes DWM exactly in `FrameGenerated` |
| ResizeSync.PresentNext | src/main.rs:671-681 | after a present the state is `Done` exactly when it was `FrameGenerated` or `Done`; only `FrameGenerated` changes |
| ResizeSync.Step | src/main.rs:671-676 | every event is one of the four kinds of transition, and `Done` is entered only from `FrameGenerated` by a present |
| ResizeSync.ReleaseOnlyByPresentedFrame | src/main.rs:504-509 | in any trace that releases a blocked waiter, there is a first present that finds `FrameGenerated`; the waiter stays blocked until then |
| ResizeSync.CycleUnderOneWaiter | src/main.rs:485-509 | when accepted resizes happen only while the waiter is released, as the blocking UI thread ensures, every event is a transition of the cycle `Done → Started → FrameGenerated → Done` or no change |
| ResizeSync.OneResizeCycle | src/main.rs:485-509 | from `Done`, an accepted resize, one framebuffer request and one present go through `Started(w, h)`, `FrameGenerated` and `Done`; the waiter is blocked after the first two steps and released after the third |
| GlSurface.Gl.constructor | src/main.rs:313-325 | the state starts as `Done` (waiter released) and the slot starts empty |
| GlSurface.Gl.OnNcCalcSize | src/main.rs:485-491 | an accepted resize sets `Started` with the rect's size, which blocks the waiter; a rejected one changes nothing |
| GlSurface.Gl.FboCallback | src/main.rs:714-771 | in `Started(w, h)`: the visual gets size `(w, h)` and offset `h`, the surface gets size `(w, h)`, and the state becomes `FrameGenerated`; otherwise sizes and state are unchanged; the slot always holds a fresh live surface; the draw is open; returns framebuffer 0 |
| GlSurface.Gl.PresentFrame | src/main.rs:688-712 | needs a surface in the slot; destroys it, ends the draw, flushes DWM when asked and commits once; the slot is left as it is |
| GlSurface.Gl.PresentCallback | src/main.rs:666-686 | succeeds exactly when not `Started`; a refusal changes nothing, not even the slot; a success presents (flushing exactly from `FrameGenerated`), ends in `Done` and empties the slot |
| PlatformTasks.Kept | src/main.rs:443-459 | the entries the pass keeps, never more than it was given |
| PlatformTasks.Due | src/main.rs:443-447 | the entries the pass runs, never more than it was given |
| PlatformTasks.KeptPreservesOrder | src/main.rs:443-459 | the kept entries appear at increasing positions of the input, each equal to the input entry there |
| PlatformTasks.KeptAllNotDue | src/main.rs:444-458 | every input entry that is not due is kept |
| PlatformTasks.KeptAreNotDue | src/main.rs:444-458 | nothing kept is due |
| PlatformTasks.DueAreDue | src/main.rs:444-447 | everything run is due |
| PlatformTasks.PassPartitions | src/main.rs:443-459 | as multisets, kept plus run equals the input: every entry runs once or stays, and none is lost or duplicated |
| PlatformTasks.PassSeparatesDue | src/main.rs:444-458 | an input entry is kept exactly when it is not due, and run exactly when it is |
| PlatformTasks.PassIsIdempotent | src/main.rs:443-459 | a second pass at the same instant keeps everything and runs nothing |
| PlatformTasks.NextDelta | src/main.rs:441-456 | there is a wake distance exactly when something is kept, and it is positive |
| PlatformTasks.NextDeltaIsMinimum | src/main.rs:449-456 | the wake distance is no larger than any kept entry's `target - now`, and equals one of them |
| PlatformTasks.PassStepDue | src/main.rs:444-447 | a due entry at the end adds its task to those run and changes neither what is kept nor the wake distance |
| PlatformTasks.PassStepKept | src/main.rs:449-458 | an entry that is not due at the end is kept, and the wake instant becomes the earlier of the old one and its own |
| PlatformTasks.RetainPass | src/main.rs:440-459 | the loop returns exactly the kept entries, the ids of the run tasks in order, and `clock + NextDelta` as the wake instant |
| PlatformTasks.PlatformLoop.constructor | src/main.rs:356 | no pending tasks at start |
| PlatformTasks.PlatformLoop.PostTask | src/main.rs:361-363 | posting appends `(target, task)` and nothing else changes |
| PlatformTasks.PlatformLoop.RunDueTasks | src/main.rs:440-463 | the pending list becomes the kept entries, the due tasks are run in order, and the control flow becomes `WaitUntil(clock + NextDelta)`, or is left alone when nothing remains |
| PlatformTasks.PlatformLoop.OnPostFlutterTask | src/main.rs:361-463 | a posted task is appended, then the pass runs over the list including it: kept entries, run tasks, and the control flow as `RunDueTasks` gives them for that list |
| FlionCompositor.Addrs | flion/src/compositor.rs:259-274 | the stored snapshot has the input's length and holds each layer's address at its position |
| FlionCompositor.Visuals | flion/src/compositor.rs:261-272 | the children after a rebuild: one visual per layer, each layer's visual at its position |
| FlionCompositor.LayerOrderChangedIff | flion/src/compositor.rs:224-229 | the change flag holds exactly when the stored snapshot differs from the new layer list |
| FlionCompositor.CloseStep | flion/src/compositor.rs:249-252 | closing one layer leaves the arena's keys unchanged, leaves that layer with no open surface, and logs as many `EndDraw`s as destructions |
| FlionCompositor.Close | flion/src/compositor.rs:226-253 | closing a list keeps the arena's keys and pairs every `EndDraw` with one destruction |
| FlionCompositor.ClosedArena | flion/src/compositor.rs:249-252 | after closing, each layer passed has its surface slot emptied and nothing else about it changed; other layers are untouched |
| FlionCompositor.CloseKeepsVisuals | flion/src/compositor.rs:249-252 | closing changes no layer's visual |
| FlionCompositor.ClosedAreTheOpen | flion/src/compositor.rs:249-252 | `EndDraw` and destruction happen for a layer exactly when it is passed and had a surface open |
| FlionCompositor.ClosedOnce | flion/src/compositor.rs:249-252 | no layer is closed twice, even when it is passed twice |
| FlionCompositor.ClosedSurfaces | flion/src/compositor.rs:249-252 | each destroyed surface is, in order, the one its closed layer had open |
| FlionCompositor.SurfaceTransformation | flion/src/compositor.rs:78-90 | the matrix sends `(x, y)` to `(x, height - y)`, and applied to that point it gives `(x, y)` back |
| FlionCompositor.Compositor.constructor | flion/src/compositor.rs:68-75 | no layers and an empty snapshot at start; the root's existing children are kept, and visuals created later get ids distinct from theirs |
| FlionCompositor.Compositor.CreateBackingStore | flion/src/compositor.rs:92-204 | a new layer under a handle not in use, with a fresh visual and no open surface; the store is an OpenGL surface-type store in format `0x93A1` whose `user_data` is that handle |
| FlionCompositor.Compositor.MakeSurfaceCurrent | flion/src/compositor.rs:128-170 | needs a layer with no open surface; afterwards exactly one fresh surface is open on it, `gl_state_changed` is false, and the call succeeds |
| FlionCompositor.Compositor.ClearCurrentSurface | flion/src/compositor.rs:172-183 | changes no layer and always succeeds |
| FlionCompositor.Compositor.CollectBackingStore | flion/src/compositor.rs:206-220 | destroys the layer's surface exactly when one is open, then removes the layer from the arena |
| FlionCompositor.Compositor.CloseLayerSurface | flion/src/compositor.rs:249-252 | one layer's turn in the first loop is exactly `CloseStep` on the arena and the logs |
| FlionCompositor.Compositor.CloseAndCompare | flion/src/compositor.rs:224-253 | the flag equals `LayerOrderChanged`, with `self.layers[i]` read only while the counts agree; the arena and the logs are those of `Close` |
| FlionCompositor.Compositor.RebuildChildren | flion/src/compositor.rs:257-276 | the children become the layers' visuals in input order, the snapshot becomes the input's addresses, and there are `1 + n` tree edits |
| FlionCompositor.Compositor.PresentLayers | flion/src/compositor.rs:222-279 | every passed layer's surface is closed as `Close` says; the children are rebuilt in input order exactly when the order changed and untouched otherwise; the snapshot becomes the input; the handler presents once |

Client methods with no contract of their own trace examples through the
classes:
- `GlSurface.ResizeScenario`: a resize from 800x600 to 1024x768;
- `GlSurface.RefusedPresentScenario`: a resize between a framebuffer request
  and its present, which leaks the first surface;
- `PlatformTasks.DueTasksScenario`: tasks due at 5, 1 and 10, with the
  loop woken at 6 and then at 11;
- `FlionCompositor.SameOrderScenario`, `OpenSurfaceScenario` and
  `ReorderScenario`: frames with an unchanged order, with an open surface,
  and with a new order.

## Left out

- EGL and ANGLE setup, `gl::Flush`, `get_proc_address` and the
  `make_current` family: these are foreign calls, and the model assumes they
  succeed.
- Errors from Windows Composition, DWM, D3D11, EGL and the handler (every `?`
  and `unwrap` on a foreign result): the model treats every such call as
  succeeding. Their effects are fields: sizes, live surfaces, open draws,
  `EndDraw`s, commits, flushes and tree edits.
- The window-metrics event `wnd_proc` sends to the engine: this is a foreign
  call with no effect on the modelled state.
- The mutex and the condition variable: the two threads are an arbitrary
  sequence of events (`ResizeSync.Run`), and `wait_while` is the predicate
  `WaiterReleased`.
- The winit event loop, window creation and pointer forwarding: these are
  I/O. The initial `ControlFlow::Wait` of `PlatformLoop` is assumed, not taken
  from winit.
- PlatformTasks.RetainPass: `Instant::now()` is read once, as `clock`. The
  source reads it once per kept entry, so its instants can drift by the time
  the pass takes; that drift is not modelled.
- `FlutterEngineGetCurrentTime` and nanosecond times are naturals.
  `Duration` and `Instant` overflow is not modelled.
- GlSurface.Gl.FboCallback: sizes are naturals, not the `f32` and `i32`
  values handed to `SetSize`, `SetOffset` and `Resize`. A second `BeginDraw`
  on a surface whose draw is still open (after a refused present) is modelled
  as succeeding.
- FlionCompositor.SurfaceTransformation: it uses reals, not `f64`, and takes
  the handler's reported height as a parameter.
- FlionCompositor.Compositor.CreateBackingStore: the drawing surface and brush
  it creates are not modelled. Only the visual id and the requested size are
  recorded.
- FlionCompositor.Compositor.ClearCurrentSurface: it does not model the
  unbinding of the EGL context. Only the fact that the layer is untouched and
  that the call returns `true` is stated.
- Platform views: any content other than a backing store aborts
  `present_layers`, and is excluded by its precondition.
- The render thread, the task runner and the EGL manager: they are not part
  of this model.
