/**
 * The scroll-driven banner (src/hooks/useBannerAnimation.ts). While the page
 * is being scrolled an animation-frame loop advances an offset by `speed` per
 * frame and writes it, wrapped, as the translation of the English (2000 px
 * loop) and Arabic (1200 px loop) banners; 100 ms without a scroll event stop
 * the loop.
 *
 * Animation frames and timeouts are events: `Frame` is the browser running
 * the pending frame callback, `TimeoutFires` the pending timeout's callback.
 * Requests and timeouts are counted, so "at most one is pending" is a claim
 * about the model rather than a consequence of its types.
 */
module BannerAnimation {
  import opened Scheduling

  const DefaultSpeed: int := 2
  const EnglishLoopWidth: int := 2000
  const ArabicLoopWidth: int := 1200

  /** JavaScript's `%`: the remainder carries the sign of the dividend. */
  function JsRem(a: int, b: int): (r: int)
    requires b > 0
    ensures -b < r < b
    ensures a >= 0 ==> r >= 0
    ensures a <= 0 ==> r <= 0
  {
    if a >= 0 then a % b else -((-a) % b)
  }

  /** The `translateX` value written for an offset on a banner that loops every `width` pixels. */
  function Translation(offset: int, width: int): (t: int)
    requires width > 0
    ensures offset >= 0 ==> -width < t <= 0
  {
    -JsRem(offset, width)
  }

  /** Advancing a non-negative offset by a whole loop shows the same picture: the loop is seamless. */
  lemma TranslationLoops(offset: int)
    requires offset >= 0
    ensures Translation(offset + EnglishLoopWidth, EnglishLoopWidth) == Translation(offset, EnglishLoopWidth)
    ensures Translation(offset + ArabicLoopWidth, ArabicLoopWidth) == Translation(offset, ArabicLoopWidth)
  {
    assert (offset + 2000) % 2000 == offset % 2000;
    assert (offset + 1200) % 1200 == offset % 1200;
  }

  /**
   * The hook's refs: the offset, the scrolling flag, the number of frame
   * requests and timeouts still pending, whether the scroll listener is
   * installed, and the translations last written to the two banners.
   */
  datatype Banner = Banner(
    speed: int,
    offset: int,
    scrolling: bool,
    pendingFrames: nat,
    liveTimeouts: nat,
    listening: bool,
    englishShift: int,
    arabicShift: int)

  datatype Event = Scroll | Frame | TimeoutFires | Teardown

  /** The state once the effect has run: nothing moved yet, listener installed. */
  function Mounted(speed: int): Banner
  {
    Banner(speed, 0, false, 0, 0, true, 0, 0)
  }

  /** The effect of one event on the hook's state. */
  function Step(b: Banner, e: Event): Banner
  {
    match e
    case Scroll =>
      // handleScroll: start the loop unless it runs, then restart the 100 ms timeout
      if !b.listening then b
      else
        b.(scrolling := true,
           pendingFrames := if b.scrolling then b.pendingFrames else b.pendingFrames + 1,
           liveTimeouts := Cancel(b.liveTimeouts) + 1)
    case Frame =>
      // animate: advance and reschedule only while scrolling
      if b.pendingFrames == 0 then b
      else if !b.scrolling then b.(pendingFrames := b.pendingFrames - 1)
      else
        var offset := b.offset + b.speed;
        b.(offset := offset,
           englishShift := Translation(offset, EnglishLoopWidth),
           arabicShift := Translation(offset, ArabicLoopWidth))
    case TimeoutFires =>
      if b.liveTimeouts == 0 then b
      else b.(liveTimeouts := b.liveTimeouts - 1, scrolling := false, pendingFrames := Cancel(b.pendingFrames))
    case Teardown =>
      b.(listening := false, pendingFrames := Cancel(b.pendingFrames), liveTimeouts := Cancel(b.liveTimeouts))
  }

  /** The state after a sequence of events. */
  function Run(b: Banner, events: seq<Event>): Banner
    decreases |events|
  {
    if events == [] then b else Run(Step(b, events[0]), events[1..])
  }

  /**
   * While the listener is installed, a frame is pending and a timeout is live
   * exactly when the banner is scrolling, never more than one of each; after
   * teardown neither is left. The written translations always show the offset.
   */
  ghost predicate Inv(b: Banner)
  {
    && b.pendingFrames <= 1
    && b.liveTimeouts <= 1
    && (b.listening ==> (b.pendingFrames == 1 <==> b.scrolling) && (b.liveTimeouts == 1 <==> b.scrolling))
    && (!b.listening ==> b.pendingFrames == 0 && b.liveTimeouts == 0)
    && b.englishShift == Translation(b.offset, EnglishLoopWidth)
    && b.arabicShift == Translation(b.offset, ArabicLoopWidth)
  }

  lemma MountedInv(speed: int)
    ensures Inv(Mounted(speed))
  {
  }

  lemma StepInv(b: Banner, e: Event)
    requires Inv(b)
    ensures Inv(Step(b, e))
  {
  }

  lemma {:induction false} RunInv(b: Banner, events: seq<Event>)
    requires Inv(b)
    ensures Inv(Run(b, events))
    decreases |events|
  {
    if events != [] {
      StepInv(b, events[0]);
      RunInv(Step(b, events[0]), events[1..]);
    }
  }

  /** A scroll while idle starts scrolling and schedules exactly one frame; a scroll while scrolling schedules none. */
  lemma ScrollSchedulesOneFrame(b: Banner)
    requires Inv(b) && b.listening
    ensures Step(b, Scroll).scrolling && Step(b, Scroll).pendingFrames == 1
    ensures b.scrolling ==> Step(b, Scroll).pendingFrames == b.pendingFrames
    ensures Step(b, Scroll).liveTimeouts == 1
  {
  }

  /** A frame while scrolling moves the offset by exactly `speed`; otherwise it changes nothing and schedules nothing. */
  lemma FrameAdvancesBySpeed(b: Banner)
    requires Inv(b)
    ensures b.scrolling && b.listening ==> Step(b, Frame).offset == b.offset + b.speed && Step(b, Frame).pendingFrames == 1
    ensures !b.scrolling ==> Step(b, Frame) == b
  {
  }

  /** The debounce timeout stops scrolling and cancels the pending frame. */
  lemma TimeoutStopsLoop(b: Banner)
    requires Inv(b) && b.scrolling && b.listening
    ensures var after := Step(b, TimeoutFires);
      !after.scrolling && after.pendingFrames == 0 && after.liveTimeouts == 0 && after.offset == b.offset
  {
  }

  /** Teardown leaves no listener, frame or timeout behind, and nothing moves afterwards. */
  lemma {:induction false} TeardownIsFinal(b: Banner, events: seq<Event>)
    requires Inv(b)
    ensures var down := Step(b, Teardown);
      !down.listening && down.pendingFrames == 0 && down.liveTimeouts == 0
      && Run(down, events) == down
    decreases |events|
  {
    var down := Step(b, Teardown);
    if events != [] {
      assert Step(down, events[0]) == down;
      TeardownIsFinal(down, events[1..]);
      assert Step(down, Teardown) == down;
    }
  }

  /** With a non-negative speed the offset never decreases. */
  lemma {:induction false} OffsetNeverDecreases(b: Banner, events: seq<Event>)
    requires b.speed >= 0
    ensures Run(b, events).offset >= b.offset
    ensures Run(b, events).speed == b.speed
    decreases |events|
  {
    if events != [] {
      OffsetNeverDecreases(Step(b, events[0]), events[1..]);
    }
  }

  /** Once scrolling has stopped, the offset stays frozen until the next scroll event. */
  lemma {:induction false} FrozenUntilScroll(b: Banner, events: seq<Event>)
    requires Inv(b) && !b.scrolling
    requires forall i :: 0 <= i < |events| ==> events[i] != Scroll
    ensures Run(b, events).offset == b.offset && !Run(b, events).scrolling
    decreases |events|
  {
    if events != [] {
      StepInv(b, events[0]);
      FrozenUntilScroll(Step(b, events[0]), events[1..]);
    }
  }

  /**
   * From any consistent state with a non-negative offset and speed (the
   * mounted state with the default speed among them), the English
   * translation stays in (-2000, 0] and the Arabic one in (-1200, 0].
   */
  lemma {:induction false} TranslationsInRange(b: Banner, events: seq<Event>)
    requires Inv(b) && b.offset >= 0 && b.speed >= 0
    ensures -EnglishLoopWidth < Run(b, events).englishShift <= 0
    ensures -ArabicLoopWidth < Run(b, events).arabicShift <= 0
  {
    OffsetNeverDecreases(b, events);
    RunInv(b, events);
  }

  /** The hook instance: its refs updated in place by the handlers. */
  class BannerHook {
    const speed: int
    var offset: int
    var isScrolling: bool
    var pendingFrames: nat
    var liveTimeouts: nat
    var listening: bool
    var englishShift: int
    var arabicShift: int

    function Model(): Banner
      reads this
    {
      Banner(speed, offset, isScrolling, pendingFrames, liveTimeouts, listening, englishShift, arabicShift)
    }

    /** The hook mounts and its effect installs the scroll listener. */
    constructor (speed: int)
      ensures Model() == Mounted(speed)
    {
      this.speed := speed;
      offset, isScrolling, pendingFrames, liveTimeouts := 0, false, 0, 0;
      listening := true;
      englishShift, arabicShift := 0, 0;
    }

    /** `applyTransform`. */
    method ApplyTransform()
      modifies this
      ensures Model() == old(Model()).(englishShift := Translation(offset, EnglishLoopWidth),
                                       arabicShift := Translation(offset, ArabicLoopWidth))
    {
      englishShift := -JsRem(offset, EnglishLoopWidth);
      arabicShift := -JsRem(offset, ArabicLoopWidth);
    }

    /** `handleScroll`. */
    method HandleScroll()
      modifies this
      ensures Model() == Step(old(Model()), Scroll)
    {
      if !listening {
        return;
      }
      if !isScrolling {
        isScrolling := true;
        pendingFrames := pendingFrames + 1;
      }
      if liveTimeouts > 0 {
        liveTimeouts := liveTimeouts - 1;
      }
      liveTimeouts := liveTimeouts + 1;
    }

    /** The browser runs the pending `animate` callback. */
    method Animate()
      modifies this
      ensures Model() == Step(old(Model()), Frame)
    {
      if pendingFrames == 0 {
        return;
      }
      pendingFrames := pendingFrames - 1;
      if isScrolling {
        offset := offset + speed;
        ApplyTransform();
        pendingFrames := pendingFrames + 1;
      }
    }

    /** The debounce timeout's callback. */
    method OnTimeout()
      modifies this
      ensures Model() == Step(old(Model()), TimeoutFires)
    {
      if liveTimeouts == 0 {
        return;
      }
      liveTimeouts := liveTimeouts - 1;
      isScrolling := false;
      if pendingFrames > 0 {
        pendingFrames := pendingFrames - 1;
      }
    }

    /** The effect's cleanup. */
    method Teardown()
      modifies this
      ensures Model() == Step(old(Model()), Event.Teardown)
    {
      listening := false;
      if pendingFrames > 0 {
        pendingFrames := pendingFrames - 1;
      }
      if liveTimeouts > 0 {
        liveTimeouts := liveTimeouts - 1;
      }
    }
  }
}
