/**
 * The intro circle reveal (src/hooks/useIntroAnimation.ts). On mount the page
 * scroll is locked and three timers are set: at 100 ms the phase becomes
 * `drawing`, at 1100 ms `expanding` (which starts an animation-frame loop
 * growing the circle), and at 3400 ms `done`, which completes the intro and
 * releases the lock. The loop releases the lock as soon as the circle is
 * larger than 300 px and stops once it covers 1.5 times the larger window
 * dimension.
 *
 * Time is a millisecond clock advanced by `Advance`, which fires the timers
 * that fall due in the order they were set; `Frame` is the browser running the
 * pending frame callback with its timestamp and the window size. Sizes and
 * timestamps are `real`.
 */
module IntroAnimation {

  datatype Phase = Initial | Drawing | Expanding | Done

  /** The position of a phase in the sequence. */
  function Rank(p: Phase): nat
  {
    match p
    case Initial => 0
    case Drawing => 1
    case Expanding => 2
    case Done => 3
  }

  const DrawAt: nat := 100
  const ExpandAt: nat := 1100
  const CompleteAt: nat := 3400
  const InitialSize: real := 150.0
  const UnlockSize: real := 300.0
  const CoverFactor: real := 1.5

  /** The phase the timers have reached at `clock` milliseconds after mounting. */
  function PhaseAt(clock: nat): Phase
  {
    if clock < DrawAt then Initial
    else if clock < ExpandAt then Drawing
    else if clock < CompleteAt then Expanding
    else Done
  }

  /** The phases occur in order and never regress as time passes. */
  lemma PhaseAtMonotone(c1: nat, c2: nat)
    requires c1 <= c2
    ensures Rank(PhaseAt(c1)) <= Rank(PhaseAt(c2))
  {
  }

  function Max(a: real, b: real): real
  {
    if a >= b then a else b
  }

  /**
   * The hook's state and the effect's closure: the three pieces of React
   * state, the document's scroll lock, which timers are still pending,
   * whether a frame of the growth loop is requested, the loop's locals
   * `size` and `lastTime`, the clock, and whether the component is mounted.
   */
  datatype Intro = Intro(
    phase: Phase,
    introComplete: bool,
    circleSize: real,
    scrollLocked: bool,
    drawPending: bool,
    expandPending: bool,
    completePending: bool,
    loopLive: bool,
    size: real,
    lastTime: real,
    clock: nat,
    mounted: bool)

  datatype Event =
    | Advance(dt: nat)
    | Frame(time: real, width: real, height: real)
    | Unmount

  /** Right after mounting: initial state, scroll locked, the three timers pending. */
  function Mounted(): Intro
  {
    Intro(Initial, false, InitialSize, true, true, true, true, false, InitialSize, 0.0, 0, true)
  }

  /** The drawing timer's callback, if it is pending and due. */
  function FireDraw(s: Intro): Intro
  {
    if s.drawPending && s.clock >= DrawAt then s.(drawPending := false, phase := Drawing) else s
  }

  /** The expanding timer's callback, if pending and due: the loop's locals start over and the first frame is requested. */
  function FireExpand(s: Intro): Intro
  {
    if s.expandPending && s.clock >= ExpandAt then
      s.(expandPending := false, phase := Expanding, loopLive := true,
         size := InitialSize, lastTime := s.clock as real)
    else s
  }

  /** The completion timer's callback, if pending and due. */
  function FireComplete(s: Intro): Intro
  {
    if s.completePending && s.clock >= CompleteAt then
      s.(completePending := false, phase := Done, introComplete := true, scrollLocked := false)
    else s
  }

  /** Time moves on to `clock`; the timers due by then fire in the order they were set. */
  function AdvanceTo(s: Intro, clock: nat): Intro
  {
    FireComplete(FireExpand(FireDraw(s.(clock := clock))))
  }

  /** One run of the frame callback `animate`. */
  function FrameStep(s: Intro, time: real, width: real, height: real): Intro
  {
    if !s.loopLive then s
    else
      var size := s.size + ((time - s.lastTime) / 16.0) * 25.0;
      s.(lastTime := time, size := size, circleSize := size,
         scrollLocked := if size > UnlockSize then false else s.scrollLocked,
         loopLive := size < Max(width, height) * CoverFactor)
  }

  /**
   * The effect's cleanup as written: the three timers are cleared and the
   * lock released, but the frame loop is not cancelled.
   */
  function CleanupAsWritten(s: Intro): Intro
  {
    s.(drawPending := false, expandPending := false, completePending := false,
       scrollLocked := false, mounted := false)
  }

  /** The cleanup as intended: the frame loop is cancelled as well. */
  function Cleanup(s: Intro): Intro
  {
    CleanupAsWritten(s).(loopLive := false)
  }

  /** The effect of one event, with the intended cleanup. */
  function Step(s: Intro, e: Event): Intro
  {
    match e
    case Advance(dt) => AdvanceTo(s, s.clock + dt)
    case Frame(time, w, h) => FrameStep(s, time, w, h)
    case Unmount => Cleanup(s)
  }

  function Run(s: Intro, events: seq<Event>): Intro
    decreases |events|
  {
    if events == [] then s else Run(Step(s, events[0]), events[1..])
  }

  /**
   * While mounted, the phase is the one the clock has reached and exactly the
   * timers not yet due are pending; the intro is complete exactly in phase
   * `done`; the loop runs only from `expanding` on and only while mounted;
   * the scroll is locked only while mounted and before `done`.
   */
  ghost predicate Inv(s: Intro)
  {
    && (s.introComplete <==> s.phase == Done)
    && (s.mounted ==>
          && s.phase == PhaseAt(s.clock)
          && (s.drawPending <==> s.clock < DrawAt)
          && (s.expandPending <==> s.clock < ExpandAt)
          && (s.completePending <==> s.clock < CompleteAt))
    && (!s.mounted ==> !s.drawPending && !s.expandPending && !s.completePending && !s.loopLive)
    && (s.loopLive ==> Rank(s.phase) >= Rank(Expanding))
    && (s.scrollLocked ==> s.mounted && s.phase != Done)
  }

  /** The initial state: phase `initial`, not complete, a 150 px circle, scroll locked. */
  lemma MountedInv()
    ensures Inv(Mounted())
    ensures Mounted().phase == Initial && !Mounted().introComplete && Mounted().circleSize == 150.0
    ensures Mounted().scrollLocked
  {
  }

  lemma StepInv(s: Intro, e: Event)
    requires Inv(s)
    ensures Inv(Step(s, e))
  {
  }

  lemma {:induction false} RunInv(s: Intro, events: seq<Event>)
    requires Inv(s)
    ensures Inv(Run(s, events))
    decreases |events|
  {
    if events != [] {
      StepInv(s, events[0]);
      RunInv(Step(s, events[0]), events[1..]);
    }
  }

  /** No event moves the phase backwards, and `introComplete` is never withdrawn. */
  lemma {:induction false} PhaseNeverRegresses(s: Intro, events: seq<Event>)
    requires Inv(s)
    ensures Rank(Run(s, events).phase) >= Rank(s.phase)
    ensures s.introComplete ==> Run(s, events).introComplete
    decreases |events|
  {
    if events != [] {
      StepInv(s, events[0]);
      PhaseNeverRegresses(Step(s, events[0]), events[1..]);
    }
  }

  /** Once the completion timer has fired, the phase is `done`, the intro complete and the scroll free. */
  lemma CompletionUnlocks(s: Intro, dt: nat)
    requires Inv(s) && s.mounted && s.clock + dt >= CompleteAt
    ensures var after := Step(s, Advance(dt));
      after.phase == Done && after.introComplete && !after.scrollLocked
  {
  }

  /** Before 100 ms nothing happens to the phase; between the timers it is `drawing`, then `expanding`. */
  lemma TimelineOrder(s: Intro, dt: nat)
    requires Inv(s) && s.mounted
    ensures var after := Step(s, Advance(dt));
      && after.phase == PhaseAt(s.clock + dt)
      && (s.clock + dt < DrawAt ==> after.phase == Initial)
      && (DrawAt <= s.clock + dt < ExpandAt ==> after.phase == Drawing)
      && (ExpandAt <= s.clock + dt < CompleteAt ==> after.phase == Expanding)
      && (s.clock < ExpandAt <= s.clock + dt ==> after.loopLive && after.size == InitialSize)
  {
    StepInv(s, Advance(dt));
  }

  /** Each frame adds 25 px per 16 ms elapsed, so the circle never shrinks when time moves forward. */
  lemma FrameGrows(s: Intro, time: real, width: real, height: real)
    requires s.loopLive && time >= s.lastTime
    ensures var after := Step(s, Frame(time, width, height));
      && after.size == s.size + (time - s.lastTime) * 25.0 / 16.0
      && after.size >= s.size
      && after.circleSize == after.size
      && after.lastTime == time
  {
  }

  /** A run of frame events whose timestamps never go backwards, starting no earlier than `since`. */
  predicate ForwardFrames(since: real, events: seq<Event>)
    decreases |events|
  {
    events == [] || (events[0].Frame? && events[0].time >= since && ForwardFrames(events[0].time, events[1..]))
  }

  /**
   * Over any run of frames whose timestamps never go backwards, the circle
   * never shrinks, the size shown is the loop's size once a frame has
   * drawn, and a released scroll lock stays released.
   */
  lemma {:induction false} FramesNeverShrink(s: Intro, since: real, events: seq<Event>)
    requires s.lastTime <= since && ForwardFrames(since, events)
    ensures Run(s, events).size >= s.size
    ensures s.circleSize == s.size ==> Run(s, events).circleSize == Run(s, events).size
    ensures !s.scrollLocked ==> !Run(s, events).scrollLocked
    decreases |events|
  {
    if events != [] {
      var e := events[0];
      var next := Step(s, e);
      assert next.lastTime <= e.time && next.size >= s.size;
      assert s.loopLive ==> next.circleSize == next.size;
      FramesNeverShrink(next, e.time, events[1..]);
    }
  }

  /** The first frame with a circle over 300 px releases the scroll lock. */
  lemma LargeCircleUnlocks(s: Intro, time: real, width: real, height: real)
    requires s.loopLive
    requires Step(s, Frame(time, width, height)).size > UnlockSize
    ensures !Step(s, Frame(time, width, height)).scrollLocked
  {
  }

  /** The loop requests another frame exactly while the circle is smaller than 1.5 times the larger window dimension. */
  lemma LoopStopsWhenCovered(s: Intro, time: real, width: real, height: real)
    requires s.loopLive
    ensures var after := Step(s, Frame(time, width, height));
      after.loopLive <==> after.size < Max(width, height) * 1.5
  {
  }

  /** A frame when no frame is requested changes nothing. */
  lemma NoLoopNoChange(s: Intro, time: real, width: real, height: real)
    requires !s.loopLive
    ensures Step(s, Frame(time, width, height)) == s
  {
  }

  /** Cleanup clears all three timers and the lock, from any state. */
  lemma CleanupClearsTimers(s: Intro)
    ensures var down := Step(s, Unmount);
      !down.drawPending && !down.expandPending && !down.completePending && !down.scrollLocked
  {
  }

  /** After the intended cleanup no event changes anything except the clock. */
  lemma {:induction false} CleanupIsFinal(s: Intro, events: seq<Event>)
    ensures var down := Cleanup(s);
      Run(down, events) == down.(clock := Run(down, events).clock)
    decreases |events|
  {
    var down := Cleanup(s);
    if events != [] {
      var next := Step(down, events[0]);
      assert next == down.(clock := next.clock);
      assert Cleanup(next) == next;
      CleanupIsFinal(next, events[1..]);
    }
  }

  /**
   * As written, unmounting during the expansion leaves the frame loop
   * running: unmounted 1100 ms after mount, in a 1000 x 1000 window, the
   * next frame 16 ms later still grows the circle. If the intro is mounted
   * again and locks the document's scroll, the orphaned loop's frame 160 ms
   * after the expansion began (a 400 px circle) releases the new lock. With
   * the intended cleanup the same frame changes nothing.
   */
  lemma CleanupAsWrittenLeavesLoop()
    ensures var expanding := AdvanceTo(Mounted(), ExpandAt);
      var down := CleanupAsWritten(expanding);
      var relocked := down.(scrollLocked := true);
      && !down.mounted && down.loopLive
      && FrameStep(down, 1116.0, 1000.0, 1000.0).size == 175.0
      && FrameStep(down, 1116.0, 1000.0, 1000.0) != down
      && !FrameStep(relocked, 1260.0, 1000.0, 1000.0).scrollLocked
      && FrameStep(Cleanup(expanding).(scrollLocked := true), 1260.0, 1000.0, 1000.0).scrollLocked
  {
  }

  /** The hook's state and the effect's closure, updated in place by the timers, the frame loop and the cleanup. */
  class IntroHook {
    var phase: Phase
    var introComplete: bool
    var circleSize: real
    var scrollLocked: bool
    var drawPending: bool
    var expandPending: bool
    var completePending: bool
    var loopLive: bool
    var size: real
    var lastTime: real
    var clock: nat
    var mounted: bool

    function Model(): Intro
      reads this
    {
      Intro(phase, introComplete, circleSize, scrollLocked, drawPending, expandPending,
            completePending, loopLive, size, lastTime, clock, mounted)
    }

    /** Mounting: the state hooks start, the effect locks the scroll and sets the three timers. */
    constructor ()
      ensures Model() == Mounted()
    {
      phase, introComplete, circleSize := Initial, false, InitialSize;
      scrollLocked := true;
      drawPending, expandPending, completePending := true, true, true;
      loopLive, size, lastTime := false, InitialSize, 0.0;
      clock, mounted := 0, true;
    }

    /** `dt` milliseconds pass; the timers that fall due fire in order. */
    method Advance(dt: nat)
      modifies this
      ensures Model() == Step(old(Model()), Event.Advance(dt))
    {
      clock := clock + dt;
      DrawTimer();
      ExpandTimer();
      CompleteTimer();
    }

    /** The drawing timer fires if it is due. */
    method DrawTimer()
      modifies this
      ensures Model() == FireDraw(old(Model()))
    {
      if drawPending && clock >= DrawAt {
        drawPending := false;
        phase := Drawing;
      }
    }

    /** The expanding timer fires if it is due and starts the growth loop. */
    method ExpandTimer()
      modifies this
      ensures Model() == FireExpand(old(Model()))
    {
      if expandPending && clock >= ExpandAt {
        expandPending := false;
        phase := Expanding;
        size := InitialSize;
        lastTime := clock as real;
        loopLive := true;
      }
    }

    /** The completion timer fires if it is due and releases the scroll. */
    method CompleteTimer()
      modifies this
      ensures Model() == FireComplete(old(Model()))
    {
      if completePending && clock >= CompleteAt {
        completePending := false;
        phase := Done;
        introComplete := true;
        scrollLocked := false;
      }
    }

    /** The browser runs the requested `animate` callback. */
    method Frame(time: real, width: real, height: real)
      modifies this
      ensures Model() == Step(old(Model()), Event.Frame(time, width, height))
    {
      if !loopLive {
        return;
      }
      var deltaTime := time - lastTime;
      lastTime := time;
      size := size + (deltaTime / 16.0) * 25.0;
      circleSize := size;
      if size > UnlockSize {
        scrollLocked := false;
      }
      loopLive := size < Max(width, height) * CoverFactor;
    }

    /** The effect's cleanup, with the frame loop cancelled. */
    method Unmount()
      modifies this
      ensures Model() == Step(old(Model()), Event.Unmount)
    {
      drawPending, expandPending, completePending := false, false, false;
      scrollLocked := false;
      loopLive := false;
      mounted := false;
    }
  }
}
