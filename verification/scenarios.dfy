/**
 * Concrete runs of the callbacks: the start-up binding, one geometry bracket
 * on Wayland, a repeated draw, and a run in which the Wayland video element
 * is rebound while a geometry change is pending.
 */
module Scenarios {
  import opened PlayerTypes
  import opened Callbacks

  const Window: Handle := 0x1234
  const Display: Handle := 0x99
  const Sink: ElementId := 7
  const OtherSink: ElementId := 8
  const Startup: Rect := Rect(0, 0, 640, 480)
  const Resized: Rect := Rect(0, 0, 320, 240)

  /**
   * The surface is realized before playback starts; the first window-handle
   * request is then dropped and its source receives the stored handle once
   * (and on Wayland the allocation known at realize time).
   */
  lemma RealizeThenBind(wayland: bool)
    ensures var s := Run(wayland, Initial(), [RealizeWidget(Window, Display, Startup)]);
      var (r, s') := BusSync(wayland, s, PrepareWindowHandle(Sink));
      && r == Drop
      && s'.overlay == Sink
      && s'.trace == [SetWindowHandle(Sink, Window)] + (if wayland then [SetRenderRect(Sink, Startup)] else [])
  {
    var es := [RealizeWidget(Window, Display, Startup)];
    var s1 := Step(wayland, Initial(), es[0]);
    assert es[1..] == [];
    assert Run(wayland, s1, []) == s1;
  }

  /** The Wayland start-up sequence: realize, context request, window-handle request. */
  const Bound: seq<Event> := [
    RealizeWidget(Window, Display, Startup),
    Bus(NeedDisplayContext(Sink)),
    Bus(PrepareWindowHandle(Sink))]

  lemma BoundState()
    ensures Run(true, Initial(), Bound) ==
      AppState(Sink, Window, Sink, Display, Startup, false,
               [SetContext(Sink, Display), SetWindowHandle(Sink, Window), SetRenderRect(Sink, Startup)])
  {
    var s1 := Step(true, Initial(), Bound[0]);
    var s2 := Step(true, s1, Bound[1]);
    var s3 := Step(true, s2, Bound[2]);
    assert Run(true, s3, []) == s3;
    assert Run(true, s2, Bound[2..]) == Run(true, s3, []);
    assert Run(true, s1, Bound[1..]) == Run(true, s2, Bound[2..]);
  }

  /**
   * A resize to 320x240 with the sink known begins a geometry change on it and
   * then pushes the new rectangle; two draws before the next after-paint
   * begin only once; the after-paint then ends the change exactly once.
   */
  lemma ResizeBracket()
    ensures var s := Run(true, Initial(), Bound);
      var s1 := Draw(true, s, Resized);
      var s2 := Draw(true, s1, Resized);
      var s3 := AfterPaint(s2);
      && s1.trace == s.trace + [BeginGeometryChange(Sink), SetRenderRect(Sink, Resized)]
      && s2.trace == s1.trace
      && s3.trace == s2.trace + [EndGeometryChange(Sink)]
      && !s3.geometryChanging
      && AfterPaint(s3) == s3
  {
    BoundState();
  }

  /**
   * As written, the end call goes to whatever the Wayland video element is at
   * after-paint time: a display-context request from another element between
   * draw and after-paint makes a bracket begun on one element end on another.
   */
  lemma RebindDuringBracket()
    ensures var s := Run(true, Initial(), Bound);
      var s1 := Draw(true, s, Resized);
      var s2 := BusSync(true, s1, NeedDisplayContext(OtherSink)).1;
      var s3 := AfterPaint(s2);
      && s1.trace == s.trace + [BeginGeometryChange(Sink), SetRenderRect(Sink, Resized)]
      && s2.wlvideo == OtherSink && s2.geometryChanging
      && s3.trace == s2.trace + [EndGeometryChange(OtherSink)]
      && Sink != OtherSink
  {
    BoundState();
  }
}
