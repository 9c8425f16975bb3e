/**
 * Shared vocabulary of the player model: opaque references, the allocation
 * rectangle, bus messages, the library calls the callbacks make (recorded as
 * trace actions) and a value snapshot of the `AppData` fields.
 */
module PlayerTypes {

  datatype Option<+T> = None | Some(value: T)

  /** An object pointer (element, overlay, Wayland video). 0 is NULL. */
  type Ptr = nat

  const NULL: Ptr := 0

  /** The source of a bus message: always an existing element, never NULL. */
  type ElementId = p: Ptr | p != NULL witness 1

  /** A native handle (`guintptr` window handle, `wl_display *`); 0 means "not yet available". */
  type Handle = nat

  /** A `GtkAllocation`: widget-local position and size. */
  datatype Rect = Rect(x: int, y: int, width: int, height: int)

  /** The bus messages the synchronous handler distinguishes. */
  datatype Message =
    | NeedDisplayContext(src: ElementId)   // Wayland display-handle context request
    | PrepareWindowHandle(src: ElementId)  // video overlay "prepare-window-handle"
    | Other                                // every other message kind

  /** `GstBusSyncReply` values the handler returns. */
  datatype Reply = Drop | Pass

  /** One externally visible library call, with the object it is made on. */
  datatype Action =
    | SetContext(target: Ptr, display: Handle)       // gst_element_set_context with a display-handle context
    | SetWindowHandle(target: Ptr, handle: Handle)   // gst_video_overlay_set_window_handle
    | SetRenderRect(target: Ptr, rect: Rect)         // gst_video_overlay_set_render_rectangle
    | BeginGeometryChange(target: Ptr)               // gst_wayland_video_begin_geometry_change
    | EndGeometryChange(target: Ptr)                 // gst_wayland_video_end_geometry_change

  /**
   * The `AppData` fields the core callbacks read and write, plus the trace of
   * library calls made so far (oldest first). On the X11 build the Wayland
   * fields do not exist; they stay at their zero value.
   */
  datatype AppState = AppState(
    overlay: Ptr,
    windowHandle: Handle,
    wlvideo: Ptr,
    displayHandle: Handle,
    allocation: Rect,
    geometryChanging: bool,
    trace: seq<Action>)

  /** `struct AppData data = {0}`: every pointer NULL, every handle 0, nothing called yet. */
  function Initial(): AppState
  {
    AppState(NULL, 0, NULL, 0, Rect(0, 0, 0, 0), false, [])
  }
}
