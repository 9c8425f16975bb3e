/**
 * The callbacks of the player as pure transitions of an `AppState`:
 * the bus sync handler (window-handle binding filter), the video widget's
 * realize and draw handlers and the frame clock's after-paint handler
 * (geometry-change bracket). `wayland` selects the build variant.
 */
module Callbacks {
  import opened PlayerTypes
  import opened GeometryBrackets

  /**
   * `bus_sync_handler`: the verdict on a message and the state after it. The
   * handler never touches the registered handles, the allocation or the
   * pending flag, and only appends to the trace.
   */
  function BusSync(wayland: bool, s: AppState, m: Message): (r: (Reply, AppState))
    ensures r.1.windowHandle == s.windowHandle && r.1.displayHandle == s.displayHandle
    ensures r.1.allocation == s.allocation && r.1.geometryChanging == s.geometryChanging
    ensures s.trace <= r.1.trace
  {
    if wayland && m.NeedDisplayContext? then
      if s.displayHandle != 0 then
        (Drop, s.(wlvideo := m.src, trace := s.trace + [SetContext(m.src, s.displayHandle)]))
      else
        (Drop, s)
    else if m.PrepareWindowHandle? then
      if s.windowHandle != 0 then
        var pushed := [SetWindowHandle(m.src, s.windowHandle)]
                      + (if wayland then [SetRenderRect(m.src, s.allocation)] else []);
        (Drop, s.(overlay := m.src, trace := s.trace + pushed))
      else
        (Drop, s)
    else
      (Pass, s)
  }

  /**
   * `video_widget_realize_cb`: registers the surface handle (and on Wayland the
   * display and the allocation). It makes no library call and leaves the
   * bound elements and the pending flag alone.
   */
  function Realize(wayland: bool, s: AppState, window: Handle, display: Handle, alloc: Rect): (r: AppState)
    ensures r.windowHandle == window && r.trace == s.trace
    ensures r.overlay == s.overlay && r.wlvideo == s.wlvideo && r.geometryChanging == s.geometryChanging
  {
    if wayland then s.(displayHandle := display, windowHandle := window, allocation := alloc)
    else s.(windowHandle := window)
  }

  /**
   * `video_widget_draw_cb` with the widget's current allocation `alloc`. A draw
   * never rebinds an element or a handle, never clears the pending flag, and
   * only appends to the trace.
   */
  function Draw(wayland: bool, s: AppState, alloc: Rect): (r: AppState)
    ensures r.overlay == s.overlay && r.wlvideo == s.wlvideo
    ensures r.windowHandle == s.windowHandle && r.displayHandle == s.displayHandle
    ensures s.geometryChanging ==> r.geometryChanging
    ensures s.trace <= r.trace
  {
    if !wayland || s.windowHandle == 0 then s
    else
      var s1 := s.(allocation := alloc);
      if s1.wlvideo != NULL && s1.overlay != NULL && !s1.geometryChanging then
        s1.(geometryChanging := true,
            trace := s1.trace + [BeginGeometryChange(s1.wlvideo), SetRenderRect(s1.overlay, alloc)])
      else s1
  }

  /**
   * `on_frame_clock_after_paint` (Wayland build only). Afterwards no change is
   * pending; only the flag and the trace can differ, and the trace only grows.
   */
  function AfterPaint(s: AppState): (r: AppState)
    ensures !r.geometryChanging
    ensures r == s.(geometryChanging := r.geometryChanging, trace := r.trace)
    ensures s.trace <= r.trace
  {
    if s.geometryChanging then
      s.(geometryChanging := false, trace := s.trace + [EndGeometryChange(s.wlvideo)])
    else s
  }

  /** One callback invocation, on whichever thread delivers it. */
  datatype Event =
    | Bus(m: Message)
    | RealizeWidget(window: Handle, display: Handle, alloc: Rect)
    | DrawWidget(alloc: Rect)
    | FrameAfterPaint

  /** The effect of one event. The after-paint signal is connected only on the Wayland build. */
  function Step(wayland: bool, s: AppState, e: Event): (r: AppState)
    ensures s.trace <= r.trace
  {
    match e
    case Bus(m) => BusSync(wayland, s, m).1
    case RealizeWidget(w, d, a) => Realize(wayland, s, w, d, a)
    case DrawWidget(a) => Draw(wayland, s, a)
    case FrameAfterPaint => if wayland then AfterPaint(s) else s
  }

  /**
   * An arbitrary sequential interleaving of callbacks, applied in order. The
   * trace is an append-only log: callbacks only ever add calls at its end.
   */
  function Run(wayland: bool, s: AppState, es: seq<Event>): (r: AppState)
    ensures s.trace <= r.trace
    decreases |es|
  {
    if es == [] then s else Run(wayland, Step(wayland, s, es[0]), es[1..])
  }

  /**
   * What holds of every reachable state:
   * - the begin/end calls alternate, starting with a begin, and an odd number
   *   of them is on record exactly while a geometry change is pending;
   * - a pending change has a Wayland video element to be ended on;
   * - no call is made on NULL, no window handle or display pushed is 0;
   * - the X11 build never touches the Wayland fields and only binds window handles.
   */
  ghost predicate Coherent(wayland: bool, s: AppState)
  {
    && Alternating(Brackets(s.trace))
    && (|Brackets(s.trace)| % 2 == 1 <==> s.geometryChanging)
    && (s.geometryChanging ==> s.wlvideo != NULL)
    && (forall a | a in s.trace :: a.target != NULL)
    && (forall a | a in s.trace :: a.SetWindowHandle? ==> a.handle != 0)
    && (forall a | a in s.trace :: a.SetContext? ==> a.display != 0)
    && (!wayland ==>
          && s.wlvideo == NULL && s.displayHandle == 0 && !s.geometryChanging
          && forall a | a in s.trace :: a.SetWindowHandle?)
  }

  // ---------------------------------------------------------------------------
  // Message verdicts (bus_sync_handler)
  // ---------------------------------------------------------------------------

  /**
   * A window-handle request, and on Wayland a display-context request, is always
   * dropped, whether or not a handle is known; every other message passes and
   * changes nothing.
   */
  lemma BusVerdict(wayland: bool, s: AppState, m: Message)
    ensures BusSync(wayland, s, m).0 == Drop <==> m.PrepareWindowHandle? || (wayland && m.NeedDisplayContext?)
    ensures BusSync(wayland, s, m).0 == Pass ==> BusSync(wayland, s, m).1 == s
  {
  }

  /**
   * With a window handle registered, a window-handle request rebinds the
   * overlay to its source, pushes the handle into it once and, on Wayland,
   * the stored allocation right after; nothing else changes.
   */
  lemma PrepareWithHandle(wayland: bool, s: AppState, src: ElementId)
    requires s.windowHandle != 0
    ensures var (r, s') := BusSync(wayland, s, PrepareWindowHandle(src));
      && r == Drop
      && s' == s.(overlay := src, trace := s'.trace)
      && s'.trace == s.trace + [SetWindowHandle(src, s.windowHandle)]
                    + (if wayland then [SetRenderRect(src, s.allocation)] else [])
  {
  }

  /** Without a window handle the request is dropped with only a warning: the overlay and the trace stay. */
  lemma PrepareWithoutHandle(wayland: bool, s: AppState, src: ElementId)
    requires s.windowHandle == 0
    ensures BusSync(wayland, s, PrepareWindowHandle(src)) == (Drop, s)
  {
  }

  /**
   * On Wayland a display-context request with a display registered sets a
   * context for that display on the source, and the source becomes the Wayland
   * video element; without a display nothing but the drop happens.
   */
  lemma NeedContext(s: AppState, src: ElementId)
    ensures var (r, s') := BusSync(true, s, NeedDisplayContext(src));
      && r == Drop
      && (s.displayHandle != 0 ==>
            s' == s.(wlvideo := src, trace := s.trace + [SetContext(src, s.displayHandle)]))
      && (s.displayHandle == 0 ==> s' == s)
  {
  }

  /** On X11 a display-context request is not recognised and passes untouched. */
  lemma NeedContextOnX11(s: AppState, src: ElementId)
    ensures BusSync(false, s, NeedDisplayContext(src)) == (Pass, s)
  {
  }

  /** The most recent window-handle request wins: two requests leave the overlay on the second source. */
  lemma LastSourceWins(wayland: bool, s: AppState, e1: ElementId, e2: ElementId)
    requires s.windowHandle != 0
    ensures var s1 := BusSync(wayland, s, PrepareWindowHandle(e1)).1;
            BusSync(wayland, s1, PrepareWindowHandle(e2)).1.overlay == e2
  {
  }

  // ---------------------------------------------------------------------------
  // Handle registration and the geometry bracket
  // ---------------------------------------------------------------------------

  /** Realize stores the handles (on Wayland also the display and allocation) and calls nothing. */
  lemma RealizeRegisters(wayland: bool, s: AppState, window: Handle, display: Handle, alloc: Rect)
    ensures var s' := Realize(wayland, s, window, display, alloc);
      && s'.windowHandle == window && s'.trace == s.trace
      && s'.overlay == s.overlay && s'.wlvideo == s.wlvideo && s'.geometryChanging == s.geometryChanging
      && (wayland ==> s'.displayHandle == display && s'.allocation == alloc)
      && (!wayland ==> s'.displayHandle == s.displayHandle && s'.allocation == s.allocation)
  {
  }

  /** Before a window handle is known (and always on X11) a draw changes nothing. */
  lemma DrawGuard(wayland: bool, s: AppState, alloc: Rect)
    requires !wayland || s.windowHandle == 0
    ensures Draw(wayland, s, alloc) == s
  {
  }

  /**
   * Once a handle is known, a draw on Wayland always refreshes the stored
   * allocation, even with no overlay yet. It begins a geometry change on the
   * Wayland video element and then pushes the new rectangle to the overlay
   * exactly when both are known and no change is pending; otherwise it calls
   * nothing.
   */
  lemma DrawStep(s: AppState, alloc: Rect)
    requires s.windowHandle != 0
    ensures var s' := Draw(true, s, alloc);
      && s'.allocation == alloc
      && s'.overlay == s.overlay && s'.wlvideo == s.wlvideo
      && s'.windowHandle == s.windowHandle && s'.displayHandle == s.displayHandle
      && (if s.wlvideo != NULL && s.overlay != NULL && !s.geometryChanging then
            s'.geometryChanging
            && s'.trace == s.trace + [BeginGeometryChange(s.wlvideo), SetRenderRect(s.overlay, alloc)]
          else
            s'.geometryChanging == s.geometryChanging && s'.trace == s.trace)
  {
  }

  /** Of two draws with no after-paint between them, the second calls nothing: only the first can begin. */
  lemma SecondDrawSilent(wayland: bool, s: AppState, a1: Rect, a2: Rect)
    ensures Draw(wayland, Draw(wayland, s, a1), a2).trace == Draw(wayland, s, a1).trace
  {
  }

  /** Two draws with no after-paint between them begin at most one geometry change. */
  lemma DoubleDrawBeginsOnce(wayland: bool, s: AppState, a1: Rect, a2: Rect)
    ensures var s2 := Draw(wayland, Draw(wayland, s, a1), a2);
      Opens(Brackets(s2.trace)) <= Opens(Brackets(s.trace)) + 1
  {
    SecondDrawSilent(wayland, s, a1, a2);
    var s1 := Draw(wayland, s, a1);
    if wayland && s.windowHandle != 0 && s.wlvideo != NULL && s.overlay != NULL && !s.geometryChanging {
      var b := BeginGeometryChange(s.wlvideo);
      var r := SetRenderRect(s.overlay, a1);
      assert s1.trace == s.trace + [b, r];
      BracketsAppend(s.trace, [b, r]);
      BracketsOfPair(b, r);
      OpensAppend(Brackets(s.trace), [true]);
      assert Opens([true]) == 1 by { assert [true][..0] == []; }
    } else {
      assert s1.trace == s.trace;
    }
  }

  /** After-paint with no change pending is a no-op. */
  lemma AfterPaintIdle(s: AppState)
    requires !s.geometryChanging
    ensures AfterPaint(s) == s
  {
  }

  /** After-paint with a change pending ends it, once, on the Wayland video element, and nothing else. */
  lemma AfterPaintCloses(s: AppState)
    requires s.geometryChanging
    ensures AfterPaint(s) == s.(geometryChanging := false, trace := s.trace + [EndGeometryChange(s.wlvideo)])
  {
  }

  // ---------------------------------------------------------------------------
  // Invariant over every interleaving
  // ---------------------------------------------------------------------------

  lemma InitialCoherent(wayland: bool)
    ensures Coherent(wayland, Initial())
  {
  }

  /**
   * Appending calls that are neither begins nor ends, all on non-NULL objects
   * and with non-zero handles, keeps the invariant, provided the pending flag
   * and the X11 restrictions are kept.
   */
  lemma AppendPlainCalls(wayland: bool, s: AppState, s': AppState, added: seq<Action>)
    requires Coherent(wayland, s)
    requires s'.trace == s.trace + added
    requires s'.geometryChanging == s.geometryChanging
    requires s'.geometryChanging ==> s'.wlvideo != NULL
    requires forall a | a in added :: && a.target != NULL && BracketOf(a) == []
                                       && (a.SetWindowHandle? ==> a.handle != 0)
                                       && (a.SetContext? ==> a.display != 0)
    requires !wayland ==> && s'.wlvideo == NULL && s'.displayHandle == 0
                          && forall a | a in added :: a.SetWindowHandle?
    ensures Coherent(wayland, s')
  {
    BracketsAppend(s.trace, added);
    BracketsOfPlain(added);
    assert Brackets(s'.trace) == Brackets(s.trace);
  }

  /** A display-context request keeps the invariant: it adds one non-bracket call on a non-NULL source. */
  lemma NeedContextCoherent(s: AppState, src: ElementId)
    requires Coherent(true, s)
    ensures Coherent(true, BusSync(true, s, NeedDisplayContext(src)).1)
  {
    if s.displayHandle != 0 {
      AppendPlainCalls(true, s, BusSync(true, s, NeedDisplayContext(src)).1, [SetContext(src, s.displayHandle)]);
    }
  }

  /** A window-handle request keeps the invariant: it adds only non-bracket calls on a non-NULL source. */
  lemma PrepareCoherent(wayland: bool, s: AppState, src: ElementId)
    requires Coherent(wayland, s)
    ensures Coherent(wayland, BusSync(wayland, s, PrepareWindowHandle(src)).1)
  {
    if s.windowHandle != 0 {
      var s' := BusSync(wayland, s, PrepareWindowHandle(src)).1;
      var w := SetWindowHandle(src, s.windowHandle);
      if wayland {
        AppendPlainCalls(wayland, s, s', [w, SetRenderRect(src, s.allocation)]);
      } else {
        AppendPlainCalls(wayland, s, s', [w]);
      }
    }
  }

  /** The bus handler keeps the invariant. */
  lemma BusSyncCoherent(wayland: bool, s: AppState, m: Message)
    requires Coherent(wayland, s)
    ensures Coherent(wayland, BusSync(wayland, s, m).1)
  {
    match m
    case NeedDisplayContext(src) => if wayland { NeedContextCoherent(s, src); }
    case PrepareWindowHandle(src) => PrepareCoherent(wayland, s, src);
    case Other =>
  }

  /** Realize keeps the invariant. */
  lemma RealizeCoherent(wayland: bool, s: AppState, window: Handle, display: Handle, alloc: Rect)
    requires Coherent(wayland, s)
    ensures Coherent(wayland, Realize(wayland, s, window, display, alloc))
  {
  }

  /** A draw keeps the invariant. */
  lemma DrawCoherent(wayland: bool, s: AppState, alloc: Rect)
    requires Coherent(wayland, s)
    ensures Coherent(wayland, Draw(wayland, s, alloc))
  {
    var s' := Draw(wayland, s, alloc);
    if s'.trace != s.trace {
      var b := BeginGeometryChange(s.wlvideo);
      var r := SetRenderRect(s.overlay, alloc);
      assert s'.trace == s.trace + [b, r];
      BracketsAppend(s.trace, [b, r]);
      BracketsOfPair(b, r);
      AlternatingExtend(Brackets(s.trace), true);
    }
  }

  /** After-paint keeps the invariant. */
  lemma AfterPaintCoherent(wayland: bool, s: AppState)
    requires Coherent(wayland, s)
    ensures Coherent(wayland, AfterPaint(s))
  {
    if s.geometryChanging {
      var e := EndGeometryChange(s.wlvideo);
      BracketsAppend(s.trace, [e]);
      BracketsOfPair(e, e);
      AlternatingExtend(Brackets(s.trace), false);
    }
  }

  /** Every event keeps the invariant. */
  lemma StepCoherent(wayland: bool, s: AppState, e: Event)
    requires Coherent(wayland, s)
    ensures Coherent(wayland, Step(wayland, s, e))
  {
    match e
    case Bus(m) => BusSyncCoherent(wayland, s, m);
    case RealizeWidget(w, d, a) => RealizeCoherent(wayland, s, w, d, a);
    case DrawWidget(a) => DrawCoherent(wayland, s, a);
    case FrameAfterPaint => if wayland { AfterPaintCoherent(wayland, s); }
  }

  /** Any interleaving of callbacks keeps the invariant. */
  lemma {:induction false} RunCoherent(wayland: bool, s: AppState, es: seq<Event>)
    requires Coherent(wayland, s)
    ensures Coherent(wayland, Run(wayland, s, es))
    decreases |es|
  {
    if es != [] {
      StepCoherent(wayland, s, es[0]);
      RunCoherent(wayland, Step(wayland, s, es[0]), es[1..]);
    }
  }

  /**
   * From start-up, over any sequence of draw, after-paint, realize and bus
   * events, the begin/end calls alternate starting with a begin, and the
   * number of begins minus the number of ends is 1 while a change is pending
   * and 0 otherwise.
   */
  lemma {:induction false} GeometryBracketsAlternate(wayland: bool, es: seq<Event>)
    ensures var s := Run(wayland, Initial(), es);
      && Alternating(Brackets(s.trace))
      && Opens(Brackets(s.trace)) - Closes(Brackets(s.trace)) == (if s.geometryChanging then 1 else 0)
  {
    InitialCoherent(wayland);
    RunCoherent(wayland, Initial(), es);
    var s := Run(wayland, Initial(), es);
    AlternatingBalance(Brackets(s.trace));
  }

  /** From start-up, no call is ever made on NULL and no handle pushed is 0. */
  lemma {:induction false} NoNullCalls(wayland: bool, es: seq<Event>, i: nat)
    requires i < |Run(wayland, Initial(), es).trace|
    ensures var a := Run(wayland, Initial(), es).trace[i];
      && a.target != NULL
      && (a.SetWindowHandle? ==> a.handle != 0)
      && (a.SetContext? ==> a.display != 0)
  {
    InitialCoherent(wayland);
    RunCoherent(wayland, Initial(), es);
    var t := Run(wayland, Initial(), es).trace;
    assert t[i] in t;
  }
}
