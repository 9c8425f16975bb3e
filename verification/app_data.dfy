/**
 * `struct AppData` and the callbacks that update it in place. Each method does
 * what its C callback does, field by field, records the library calls it makes
 * in the ghost `trace`, and is proved to agree with its transition, whose
 * properties are proved beside it: BusSyncHandler with Callbacks.BusSync,
 * VideoWidgetRealize with Callbacks.Realize, VideoWidgetDraw with
 * Callbacks.Draw, OnFrameClockAfterPaint with Callbacks.AfterPaint and
 * OnAboutToFinish with Playlist.NextUri.
 */
module Player {
  import opened PlayerTypes
  import opened Callbacks
  import opened Playlist

  class AppData {
    /** Which build this is: WAYLAND_DEMO defined (true) or the X11 build (false). */
    const wayland: bool
    /** The command line, NULL-terminated. */
    const argv: seq<Option<string>>

    var overlay: Ptr
    var windowHandle: Handle
    var wlvideo: Ptr
    var displayHandle: Handle
    var allocation: Rect
    var geometryChanging: bool
    var currentUri: nat

    /** The library calls made so far, oldest first. */
    ghost var trace: seq<Action>

    /** The handle and geometry fields, with the trace, as a value. */
    ghost function Snapshot(): AppState
      reads this
    {
      AppState(overlay, windowHandle, wlvideo, displayHandle, allocation, geometryChanging, trace)
    }

    ghost predicate Valid()
      reads this
    {
      && Coherent(wayland, Snapshot())
      && CommandLine(argv)
      && (Argc(argv) > 1 ==> 1 <= currentUri < Argc(argv))
    }

    /** The zero-initialised `AppData` of `main`, with the URI index on the first argument when there is one. */
    constructor (wayland: bool, argv: seq<Option<string>>)
      requires CommandLine(argv)
      ensures Valid()
      ensures this.wayland == wayland && this.argv == argv
      ensures Snapshot() == Initial()
      ensures currentUri == if Argc(argv) > 1 then 1 else 0
    {
      this.wayland := wayland;
      this.argv := argv;
      overlay, windowHandle := NULL, 0;
      wlvideo, displayHandle := NULL, 0;
      allocation := Rect(0, 0, 0, 0);
      geometryChanging := false;
      currentUri := if |argv| - 1 > 1 then 1 else 0;
      trace := [];
      InitialCoherent(wayland);
    }

    /** `bus_sync_handler`: binds the stored handles to the message source and drops the message, or passes it. */
    method BusSyncHandler(m: Message) returns (reply: Reply)
      requires Valid()
      modifies this`overlay, this`wlvideo, this`trace
      ensures Valid()
      ensures (reply, Snapshot()) == BusSync(wayland, old(Snapshot()), m)
    {
      ghost var s0 := Snapshot();
      ghost var expected := BusSync(wayland, s0, m);
      BusSyncCoherent(wayland, s0, m);
      if wayland && m.NeedDisplayContext? {
        if displayHandle != 0 {
          trace := trace + [SetContext(m.src, displayHandle)];
          wlvideo := m.src;
          assert Snapshot() == s0.(wlvideo := m.src, trace := s0.trace + [SetContext(m.src, s0.displayHandle)]);
        }
        // otherwise: warning only
        reply := Drop;
      } else if m.PrepareWindowHandle? {
        if windowHandle != 0 {
          overlay := m.src;
          trace := trace + [SetWindowHandle(overlay, windowHandle)];
          if wayland {
            trace := trace + [SetRenderRect(overlay, allocation)];
            assert trace == s0.trace + ([SetWindowHandle(m.src, windowHandle)] + [SetRenderRect(m.src, allocation)]);
          } else {
            assert trace == s0.trace + ([SetWindowHandle(m.src, windowHandle)] + []);
          }
          assert Snapshot() == expected.1;
        }
        // otherwise: warning only
        reply := Drop;
      } else {
        reply := Pass;
      }
      assert (reply, Snapshot()) == expected;
    }

    /** `video_widget_realize_cb`, given the handles and the allocation the toolkit reports. */
    method VideoWidgetRealize(window: Handle, display: Handle, alloc: Rect)
      requires Valid()
      modifies this`windowHandle, this`displayHandle, this`allocation
      ensures Valid()
      ensures Snapshot() == Realize(wayland, old(Snapshot()), window, display, alloc)
    {
      RealizeCoherent(wayland, Snapshot(), window, display, alloc);
      if wayland {
        displayHandle := display;
        windowHandle := window;
        allocation := alloc;
      } else {
        windowHandle := window;
      }
    }

    /** `video_widget_draw_cb`, given the widget's current allocation; never stops the draw signal. */
    method VideoWidgetDraw(alloc: Rect) returns (handled: bool)
      requires Valid()
      modifies this`allocation, this`geometryChanging, this`trace
      ensures Valid()
      ensures !handled
      ensures Snapshot() == Draw(wayland, old(Snapshot()), alloc)
    {
      DrawCoherent(wayland, Snapshot(), alloc);
      if wayland {
        if windowHandle == 0 {
          return false;
        }
        allocation := alloc;
        if wlvideo != NULL && overlay != NULL && !geometryChanging {
          trace := trace + [BeginGeometryChange(wlvideo)];
          geometryChanging := true;
          trace := trace + [SetRenderRect(overlay, allocation)];
        }
      }
      return false;
    }

    /** `on_frame_clock_after_paint`, connected on the Wayland build only. */
    method OnFrameClockAfterPaint()
      requires Valid() && wayland
      modifies this`geometryChanging, this`trace
      ensures Valid()
      ensures Snapshot() == AfterPaint(old(Snapshot()))
    {
      AfterPaintCoherent(wayland, Snapshot());
      if geometryChanging {
        trace := trace + [EndGeometryChange(wlvideo)];
        geometryChanging := false;
      }
    }

    /**
     * `on_about_to_finish`, connected only when URIs were given: moves to the
     * next URI, wrapping at the NULL terminator, and returns the URI to play.
     */
    method OnAboutToFinish() returns (uri: string)
      requires Valid() && Argc(argv) > 1
      modifies this`currentUri
      ensures Valid()
      ensures currentUri == NextUri(argv, old(currentUri))
      ensures argv[currentUri] == Some(uri)
    {
      currentUri := currentUri + 1;
      if argv[currentUri].None? {
        currentUri := 1;
      }
      uri := argv[currentUri].value;
    }
  }
}
