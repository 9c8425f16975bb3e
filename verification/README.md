# gst-gtk-player: window-handle binding and geometry bracket, in Dafny

This project models the core of gst-gtk-player's `src/main.c`. The player embeds a
GStreamer video sink in a GTK widget. The core is the small state machine that the
callbacks run over the fields of `struct AppData`:

- **Bus sync handler** (`bus_sync_handler`). This is the window-handle binding filter. It
  runs on the streaming thread and sees every bus message first. It drops each
  "prepare-window-handle" request and, on the Wayland build, each display-handle context
  request, whether or not a handle is known. For a window-handle request, when
  `window_handle` is non-zero, it rebinds `overlay` to the message source. It then pushes
  the stored window handle into it, and on Wayland also the stored allocation. For a context
  request, when `display_handle` is non-zero, it sets a display context on the source and
  rebinds `wlvideo` to it. With the handle still 0 it only logs a warning. Every other
  message passes.
- **Handle registration** (`video_widget_realize_cb`). It stores the native window handle.
  On Wayland it also stores the `wl_display` and the widget's allocation.
- **Geometry-change bracket** (`video_widget_draw_cb`, `on_frame_clock_after_paint`). On
  the X11 build a draw does nothing. On Wayland a draw does nothing until `window_handle` is
  non-zero. After that, it always refreshes the stored allocation. It begins a geometry
  change on `wlvideo` and then pushes the new rectangle to `overlay`, but only when
  `wlvideo` and `overlay` are both non-NULL and no change is pending. Begin and end calls go
  to `wlvideo`, while the rectangle goes to `overlay`; the two may be different elements.
  The frame clock's after-paint ends a pending change on `wlvideo` and is otherwise a no-op.
- **Playlist looping** (`on_about_to_finish`). It advances the index into `argv` and wraps
  back to 1 at the NULL terminator.

The model has these parts:

- Module `PlayerTypes` (types.dfy) holds the types. Object pointers and handles are
  naturals, with 0 as NULL. Messages, replies, rectangles and the library calls are
  datatypes. `AppState` is a value snapshot of the fields together with the trace of calls
  made so far.
- Module `Callbacks` (callbacks.dfy) states each callback as a transition of `AppState`:
  `BusSync`, `Realize`, `Draw` and `AfterPaint`. `Step` applies one event and `Run` applies
  any sequence of events. The invariant `Coherent` is proved to hold after every such
  sequence.
- Module `GeometryBrackets` (brackets.dfy) defines what "begin and end alternate" means on
  the trace.
- Module `Playlist` (playlist.dfy) holds the URI index arithmetic.
- Module `Player` (app_data.dfy) has the class `AppData`. It has a ghost `trace` and one
  method per callback. Each method updates the fields in place as the C code does.
  - It models the fields of `struct AppData` that the callbacks use: `overlay`,
    `window_handle`, `wlvideo`, `display_handle`, `video_widget_allocation`,
    `geometry_changing`, `argv` and `current_uri`.
  - `video_window`, `app_window` and `pipeline` are not modelled.
  - The Wayland-only fields are present on both builds. On X11 they stay at their zero value.
  - Each method is proved to agree with its transition: `BusSyncHandler` with `BusSync`,
    `VideoWidgetRealize` with `Realize`, `VideoWidgetDraw` with `Draw`,
    `OnFrameClockAfterPaint` with `AfterPaint`, and `OnAboutToFinish` with `NextUri`.
- Module `Scenarios` (scenarios.dfy) holds concrete runs.

The two builds (`WAYLAND_DEMO` defined or not) are a `wayland: bool` constant on the class
and a parameter of the transitions. Toolkit queries are parameters of the methods: the
widget's window, display and allocation. Each call into GStreamer, GDK or Wayland becomes
one trace entry: `SetContext`, `SetWindowHandle`, `SetRenderRect`, `BeginGeometryChange`
or `EndGeometryChange`.

The end of a geometry change goes to whatever `wlvideo` is when after-paint runs
(src/main.c:144). Suppose a display-context request from another element arrives between
the draw and the after-paint. That request rebinds `wlvideo` (src/main.c:96), so the change
begun on the first element is ended on the other. Begin and end calls still alternate
globally, but they are not paired per element. `Scenarios.RebindDuringBracket` exhibits
this run.

## Model

| member | source | states |
|---|---|---|
| Player.AppData.constructor | src/main.c:290-318 | the zero-initialised `AppData`: no overlay, no handles, no change pending, nothing called; the URI index is 1 when URIs were given, else 0 |
| Player.AppData.BusSyncHandler | src/main.c:80-134 | the handler's verdict and the new overlay, Wayland video element and trace are those of `BusSync`, and the invariant is kept |
| Player.AppData.VideoWidgetRealize | src/main.c:150-178 | the stored handles and allocation after realize are those of `Realize`, and the invariant is kept |
| Player.AppData.VideoWidgetDraw | src/main.c:180-206 | the draw handler never stops the signal (returns FALSE); allocation, pending flag and trace afterwards are those of `Draw`; the invariant is kept |
| Player.AppData.OnFrameClockAfterPaint | src/main.c:136-147 | on the Wayland build, pending flag and trace afterwards are those of `AfterPaint`; the invariant is kept |
| Player.AppData.OnAboutToFinish | src/main.c:70-78 | the index moves to `NextUri` of the old one and the URI returned is `argv` at the new index |
| Callbacks.BusVerdict | src/main.c:85-133 | a window-handle request, and on Wayland a display-context request, is dropped whether or not a handle is known; every other message passes and changes no field and no trace |
| Callbacks.PrepareWithHandle | src/main.c:105-124 | with a window handle known, the overlay becomes the message source, exactly one SetWindowHandle(source, handle) is appended, followed on Wayland by SetRenderRect(source, stored allocation); nothing else changes |
| Callbacks.PrepareWithoutHandle | src/main.c:105-130 | with no window handle, the request is dropped and no field and no trace changes |
| Callbacks.NeedContext | src/main.c:86-102 | on Wayland, with a display known, a context for that display is set on the source and the source becomes the Wayland video element; without one, only the drop happens |
| Callbacks.NeedContextOnX11 | src/main.c:85-133 | on the X11 build a display-context request is not recognised: it passes and changes nothing |
| Callbacks.LastSourceWins | src/main.c:105-112 | the most recent window-handle request's source is the overlay |
| Callbacks.RealizeRegisters | src/main.c:158-177 | realize stores the window handle (on Wayland also the display and allocation), calls nothing and leaves overlay, Wayland video element and pending flag alone |
| Callbacks.DrawGuard | src/main.c:183-189 | before a window handle is known, and always on X11, a draw changes nothing |
| Callbacks.DrawStep | src/main.c:186-202 | once a handle is known, a draw always refreshes the stored allocation; it appends BeginGeometryChange(wlvideo) then SetRenderRect(overlay, allocation) and sets the pending flag exactly when both are known and no change is pending, and otherwise calls nothing |
| Callbacks.BusSync | src/main.c:80-134 | the bus handler never changes the registered handles, the allocation or the pending flag, and only appends to the trace |
| Callbacks.Realize | src/main.c:150-178 | realize sets the window handle, makes no library call, and leaves overlay, Wayland video element and pending flag alone |
| Callbacks.Draw | src/main.c:180-206 | a draw never rebinds an element or a handle, never clears the pending flag, and only appends to the trace |
| Callbacks.AfterPaint | src/main.c:136-147 | after after-paint no change is pending; only the flag and the trace can differ, and the trace only grows |
| Callbacks.Step | src/main.c:80-206 | every callback only appends to the trace of library calls |
| Callbacks.Run | src/main.c:80-206 | over any sequence of callbacks the trace is an append-only log |
| Callbacks.SecondDrawSilent | src/main.c:195-202 | of two draws with no after-paint between them, the second calls nothing, so only the first can begin |
| Callbacks.DoubleDrawBeginsOnce | src/main.c:195-197 | two draws with no after-paint between them add at most one begin call |
| GeometryBrackets.OpensAppend | src/main.c:195-197 | the number of begin calls in two joined stretches of trace is the sum of the two counts |
| Callbacks.AfterPaintIdle | src/main.c:142-146 | after-paint with no change pending is a no-op |
| Callbacks.AfterPaintCloses | src/main.c:142-146 | after-paint with a change pending appends one EndGeometryChange(wlvideo) and clears the flag, nothing else |
| Callbacks.InitialCoherent | src/main.c:290 | the zero-initialised state satisfies the invariant |
| Callbacks.AppendPlainCalls | src/main.c:86-124 | appending calls that are neither begins nor ends, on non-NULL objects with non-zero handles, keeps the invariant |
| Callbacks.NeedContextCoherent | src/main.c:86-102 | a display-context request keeps the invariant |
| Callbacks.PrepareCoherent | src/main.c:105-130 | a window-handle request keeps the invariant |
| Callbacks.BusSyncCoherent | src/main.c:80-134 | the bus handler keeps the invariant |
| Callbacks.RealizeCoherent | src/main.c:150-178 | realize keeps the invariant |
| Callbacks.DrawCoherent | src/main.c:180-206 | a draw keeps the invariant: it begins only when no change is pending and only on a non-NULL element |
| Callbacks.AfterPaintCoherent | src/main.c:136-147 | after-paint keeps the invariant: it ends only when a change is pending |
| Callbacks.StepCoherent | src/main.c:80-206 | every callback keeps the invariant |
| Callbacks.RunCoherent | src/main.c:80-206 | every interleaving of callbacks keeps the invariant |
| Callbacks.GeometryBracketsAlternate | src/main.c:142-146 | from start-up, over any interleaving, begin and end calls alternate starting with a begin, and #begin - #end is 1 while a change is pending, else 0 |
| Callbacks.NoNullCalls | src/main.c:86-124 | from start-up, over any interleaving, no library call is made on NULL, and no window handle or display pushed is 0 |
| GeometryBrackets.BracketsAppend | src/main.c:142-146 | the begin/end calls of two joined stretches of trace are those of the first followed by those of the second |
| GeometryBrackets.BracketsOfPlain | src/main.c:86-124 | a stretch of trace with no begin or end call has no bracket marks |
| GeometryBrackets.AlternatingBalance | src/main.c:195-197 | in an alternating run of begin/end calls there is one more begin than end exactly when the run has odd length |
| GeometryBrackets.AlternatingExtend | src/main.c:195-197 | a begin may follow only an even run and an end only an odd run if the calls are to keep alternating |
| Playlist.NextUri | src/main.c:73-74 | the next index is the following argument, or 1 when the following slot is the NULL terminator; it stays within 1..argc-1 and always names a URI |
| Playlist.Advance | src/main.c:73-74 | after any number of finished tracks the index stays within 1..argc-1 |
| Playlist.AdvanceCycles | src/main.c:73-77 | after k finished tracks from URI i the player is on URI 1 + (i - 1 + k) mod (argc - 1): the URIs loop in order forever |
| Scenarios.RealizeThenBind | src/main.c:311-314 | realize, then a window-handle request: dropped, the source gets the stored handle once (and on Wayland the realize-time allocation) |
| Scenarios.BoundState | src/main.c:86-124 | the Wayland start-up sequence leaves the sink as both overlay and Wayland video element, with context, handle and rectangle pushed in that order |
| Scenarios.ResizeBracket | src/main.c:142-146 | a resize to 320x240 begins a change then pushes the rectangle; a second draw begins nothing; after-paint ends the change once, and a further after-paint is a no-op |
| Scenarios.RebindDuringBracket | src/main.c:93-96 | a display-context request from another element during a pending change makes the change begun on the first element end on the other |

## Left out

- `build_window`, `find_file`, `get_sink` and `main` are not modelled. They are UI loading,
  file lookup, element creation, pipeline assembly, clock choice and the event loop. Only
  `main`'s zero initialisation and its setup of `argv`/`current_uri` are in the constructor.
- The startup order, realize before the pipeline goes to PLAYING, is not enforced. The model
  lets bus messages arrive before realize, and the handler then drops them with only a
  warning. `Scenarios.RealizeThenBind` shows the intended order.
- The Play/Pause/Stop button callbacks are not modelled. Each is a one-line
  `gst_element_set_state` call.
- The codec-preference notifier is not modelled. fs-element-added-notifier is not part of
  this model.
- Threads are not modelled. The bus handler runs on a streaming thread and the widget
  callbacks run on the GTK thread. The model treats each callback as atomic, in an arbitrary
  sequential interleaving, so data races on `overlay`, `wlvideo` and the allocation are not
  captured.
- `g_print`/`g_warning` logging, `gst_message_unref` and the behaviour of the GStreamer, GDK
  and Wayland calls are not modelled. The calls appear only as trace entries.
- The `g_object_set(playbin, "uri", …)` call of `on_about_to_finish` is not in the trace. It
  is the returned URI.
- The connection of the after-paint signal at realize time is not modelled. The after-paint
  callback is taken as connected on the Wayland build. Before realize nothing can be pending,
  so the difference is not observable.
- Widget, element and surface identities are opaque naturals. The model does not capture
  reference counting or the lifetime of the elements.
