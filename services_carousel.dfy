/**
 * The services carousel (src/components/Services.tsx): step buttons that
 * wrap around at either end, a press-and-hold button that scrolls 8 px per
 * animation frame and wraps to the start, drag-to-scroll with the mouse, and
 * the check that decides whether the scroll control is offered at all.
 *
 * Positions are the values the handlers command: a smooth `scrollBy` is
 * its target, and the browser's clamping of `scrollLeft` is not modelled.
 * Animation frames are an event (`Frame`) that runs one pending callback.
 */
module ServicesCarousel {
  import opened Scheduling

  /** `scrollLeft` / `scrollRight` move by this much. */
  const ButtonStep: int := 300
  /** The hold-to-scroll loop moves by this much per frame. */
  const HoldStep: int := 8

  /** `scrollWidth - clientWidth`: the largest position the content allows. */
  function MaxScroll(scrollWidth: int, clientWidth: int): int
  {
    scrollWidth - clientWidth
  }

  /** Moving forward by `step`, or back to the start once the end would be reached. */
  function WrapForward(current: int, maxScroll: int, step: int): int
  {
    if current + step >= maxScroll then 0 else current + step
  }

  /** Where `scrollRight` sends the carousel. */
  function RightTarget(current: int, maxScroll: int): int
  {
    WrapForward(current, maxScroll, ButtonStep)
  }

  /** Where `scrollLeft` sends the carousel: to the end from near the start. */
  function LeftTarget(current: int, maxScroll: int): int
  {
    if current <= ButtonStep then maxScroll else current - ButtonStep
  }

  /** Where one frame of the hold-to-scroll loop sends the carousel. */
  function HoldTarget(current: int, maxScroll: int): int
  {
    WrapForward(current, maxScroll, HoldStep)
  }

  /**
   * A forward step from a non-negative position either wraps to 0 or lands
   * strictly between the position and the end, and it wraps exactly when the
   * step would reach the end.
   */
  lemma WrapForwardBounds(current: int, maxScroll: int, step: int)
    requires current >= 0 && step > 0
    ensures var r := WrapForward(current, maxScroll, step);
      (r == 0 <==> current + step >= maxScroll)
      && (r != 0 ==> current < r < maxScroll && r - current == step)
  {
  }

  /** `scrollLeft` from beyond the first step lands on a positive position; near the start it jumps to the end. */
  lemma LeftTargetBounds(current: int, maxScroll: int)
    ensures current > ButtonStep ==> 0 < LeftTarget(current, maxScroll) < current
    ensures current <= ButtonStep ==> LeftTarget(current, maxScroll) == maxScroll
  {
  }

  /** Away from both ends, `scrollLeft` undoes `scrollRight` and `scrollRight` undoes `scrollLeft`. */
  lemma ButtonsUndoEachOther(current: int, maxScroll: int)
    ensures 0 < current && current + ButtonStep < maxScroll ==>
      LeftTarget(RightTarget(current, maxScroll), maxScroll) == current
    ensures ButtonStep < current < maxScroll ==>
      RightTarget(LeftTarget(current, maxScroll), maxScroll) == current
  {
  }

  /** The two ends are joined: left from the start reaches the end, right from the end reaches the start. */
  lemma ButtonsJoinEnds(maxScroll: int)
    ensures LeftTarget(0, maxScroll) == maxScroll
    ensures RightTarget(maxScroll, maxScroll) == 0
  {
  }

  /** The position after `n` frames of the hold-to-scroll loop. */
  function Hold(n: nat, current: int, maxScroll: int): int
  {
    if n == 0 then current else Hold(n - 1, HoldTarget(current, maxScroll), maxScroll)
  }

  /** How many frames the hold-to-scroll loop takes from `current` until it wraps to 0. */
  function FramesToWrap(current: int, maxScroll: int): (n: nat)
    decreases maxScroll - current
  {
    if current + HoldStep >= maxScroll then 1 else 1 + FramesToWrap(current + HoldStep, maxScroll)
  }

  /**
   * Holding the button from a non-negative position moves forward 8 px per
   * frame, and after `FramesToWrap` frames it is back at 0; from a position
   * before the end that is the smallest count of 8 px steps reaching the
   * end, so no frame before it wraps.
   */
  lemma {:induction false} HoldWrapsToStart(current: int, maxScroll: int)
    requires current >= 0
    ensures var n := FramesToWrap(current, maxScroll);
      && n >= 1
      && Hold(n, current, maxScroll) == 0
      && (current < maxScroll ==> current + HoldStep * (n - 1) < maxScroll)
      && maxScroll <= current + HoldStep * n
      && (forall k :: 0 < k < n ==> Hold(k, current, maxScroll) == current + HoldStep * k)
    decreases maxScroll - current
  {
    var n := FramesToWrap(current, maxScroll);
    if current + HoldStep < maxScroll {
      var next := current + HoldStep;
      HoldWrapsToStart(next, maxScroll);
      var m := FramesToWrap(next, maxScroll);
      assert n == 1 + m;
      assert current + HoldStep * (n - 1) == next + HoldStep * (m - 1);
      assert current + HoldStep * n == next + HoldStep * m;
      assert Hold(n, current, maxScroll) == Hold(n - 1, next, maxScroll);
      forall k | 0 < k < n
        ensures Hold(k, current, maxScroll) == current + HoldStep * k
      {
        assert Hold(k, current, maxScroll) == Hold(k - 1, next, maxScroll);
      }
    }
  }

  /** While dragging, the position follows the pointer in the opposite direction. */
  function DragPosition(scrollStart: int, dragStart: int, clientX: int): int
  {
    scrollStart - (clientX - dragStart)
  }

  /** A pointer back at its starting point restores the starting position; every pixel of pointer travel moves the content one pixel. */
  lemma DragFollowsPointer(scrollStart: int, dragStart: int, x: int, y: int)
    ensures DragPosition(scrollStart, dragStart, dragStart) == scrollStart
    ensures DragPosition(scrollStart, dragStart, x) - DragPosition(scrollStart, dragStart, y) == y - x
  {
  }

  /**
   * The component's state: whether the carousel element is attached, its
   * geometry and position, whether the scroll control is shown, the hold
   * flag and the number of hold-loop frames pending, the drag state, and
   * whether the resize listener is installed.
   */
  datatype Carousel = Carousel(
    attached: bool,
    scrollLeft: int,
    scrollWidth: int,
    clientWidth: int,
    canScroll: bool,
    pressed: bool,
    holdFrames: nat,
    dragging: bool,
    dragStart: int,
    scrollStart: int,
    resizeListening: bool)

  datatype Event =
    | Resize(scrollWidth: int, clientWidth: int)
    | ClickLeft
    | ClickRight
    | ButtonDown
    | ButtonUp
    | Frame
    | MouseDown(clientX: int)
    | MouseMove(clientX: int)
    | MouseUp
    | MouseLeave
    | Unmount

  /** `checkScroll`: the control is offered exactly when the content is wider than the viewport. */
  function Checked(c: Carousel): Carousel
  {
    if c.attached then c.(canScroll := c.scrollWidth > c.clientWidth) else c
  }

  /** The state after the first render and the effects: nothing pressed or dragged, the control checked once. */
  function Mounted(attached: bool, scrollLeft: int, scrollWidth: int, clientWidth: int): Carousel
  {
    Checked(Carousel(attached, scrollLeft, scrollWidth, clientWidth, false, false, 0, false, 0, 0, true))
  }

  /** The effect of one event. */
  function Step(c: Carousel, e: Event): Carousel
  {
    match e
    case Resize(w, cw) =>
      var resized := c.(scrollWidth := w, clientWidth := cw);
      if c.resizeListening then Checked(resized) else resized
    case ClickLeft =>
      if c.attached then c.(scrollLeft := LeftTarget(c.scrollLeft, MaxScroll(c.scrollWidth, c.clientWidth))) else c
    case ClickRight =>
      if c.attached then c.(scrollLeft := RightTarget(c.scrollLeft, MaxScroll(c.scrollWidth, c.clientWidth))) else c
    case ButtonDown =>
      // the flag is raised before the element is looked up
      if !c.canScroll then c
      else if c.attached then c.(pressed := true, holdFrames := c.holdFrames + 1)
      else c.(pressed := true)
    case ButtonUp =>
      if !c.canScroll then c else c.(pressed := false, holdFrames := Cancel(c.holdFrames))
    case Frame =>
      // one pending callback runs; it steps and re-requests only while the flag is raised
      if c.holdFrames == 0 then c
      else if !c.pressed then c.(holdFrames := c.holdFrames - 1)
      else c.(scrollLeft := HoldTarget(c.scrollLeft, MaxScroll(c.scrollWidth, c.clientWidth)))
    case MouseDown(x) =>
      c.(dragging := true, dragStart := x, scrollStart := if c.attached then c.scrollLeft else 0)
    case MouseMove(x) =>
      if !c.dragging || !c.attached then c
      else c.(scrollLeft := DragPosition(c.scrollStart, c.dragStart, x))
    case MouseUp => c.(dragging := false)
    case MouseLeave => c.(dragging := false)
    case Unmount =>
      c.(resizeListening := false, holdFrames := Cancel(c.holdFrames))
  }

  function Run(c: Carousel, events: seq<Event>): Carousel
    decreases |events|
  {
    if events == [] then c else Run(Step(c, events[0]), events[1..])
  }

  /** Whenever the resize listener is installed and the element attached, the control is offered exactly when the content overflows. */
  ghost predicate ControlMatchesOverflow(c: Carousel)
  {
    c.attached && c.resizeListening ==> (c.canScroll <==> c.scrollWidth > c.clientWidth)
  }

  lemma MountedControlMatchesOverflow(attached: bool, scrollLeft: int, scrollWidth: int, clientWidth: int)
    ensures ControlMatchesOverflow(Mounted(attached, scrollLeft, scrollWidth, clientWidth))
    ensures attached ==> (Mounted(attached, scrollLeft, scrollWidth, clientWidth).canScroll <==> scrollWidth > clientWidth)
    ensures !attached ==> !Mounted(attached, scrollLeft, scrollWidth, clientWidth).canScroll
  {
  }

  lemma {:induction false} RunControlMatchesOverflow(c: Carousel, events: seq<Event>)
    requires ControlMatchesOverflow(c)
    ensures ControlMatchesOverflow(Run(c, events))
    decreases |events|
  {
    if events != [] {
      assert ControlMatchesOverflow(Step(c, events[0]));
      RunControlMatchesOverflow(Step(c, events[0]), events[1..]);
    }
  }

  /** A frame while the button is held moves the carousel by the hold rule and keeps the loop going. */
  lemma HoldFrameSteps(c: Carousel)
    requires c.pressed && c.holdFrames > 0
    ensures Step(c, Frame).scrollLeft == HoldTarget(c.scrollLeft, MaxScroll(c.scrollWidth, c.clientWidth))
    ensures Step(c, Frame).holdFrames == c.holdFrames
  {
  }

  /** The events that do not move the carousel by themselves: everything but the buttons and the drag. */
  predicate Passive(e: Event)
  {
    e.Frame? || e.Resize? || e.ButtonUp? || e.MouseUp? || e.MouseLeave? || e.Unmount?
  }

  /**
   * Once the button is released, no frame moves the carousel, and each
   * frame retires one pending callback, until some event other than a
   * passive one happens.
   */
  lemma {:induction false} ReleasedStaysPut(c: Carousel, events: seq<Event>)
    requires !c.pressed
    requires forall i :: 0 <= i < |events| ==> Passive(events[i])
    ensures Run(c, events).scrollLeft == c.scrollLeft
    ensures !Run(c, events).pressed
    ensures Run(c, events).holdFrames <= c.holdFrames
    decreases |events|
  {
    if events != [] {
      ReleasedStaysPut(Step(c, events[0]), events[1..]);
    }
  }

  /** Release clears the flag and cancels the latest pending frame. */
  lemma ReleaseCancels(c: Carousel)
    requires c.canScroll && c.holdFrames > 0
    ensures !Step(c, ButtonUp).pressed && Step(c, ButtonUp).holdFrames == c.holdFrames - 1
  {
  }

  /** A press followed by a release leaves no frame pending beyond those already there. */
  lemma PressReleaseBalanced(c: Carousel)
    requires c.canScroll && c.attached
    ensures var after := Run(c, [ButtonDown, ButtonUp]);
      !after.pressed && after.holdFrames == c.holdFrames && after.scrollLeft == c.scrollLeft
  {
    var down := Step(c, ButtonDown);
    assert Run(c, [ButtonDown, ButtonUp]) == Run(down, [ButtonUp]);
    assert Run(down, [ButtonUp]) == Run(Step(down, ButtonUp), []);
  }

  /** A mouse move while not dragging changes nothing; while dragging it applies the drag rule. */
  lemma MoveOnlyWhileDragging(c: Carousel, x: int)
    ensures !c.dragging ==> Step(c, MouseMove(x)) == c
    ensures c.dragging && c.attached ==> Step(c, MouseMove(x)).scrollLeft == c.scrollStart - (x - c.dragStart)
  {
  }

  /** Mouse-up and mouse-leave both end a drag, and do nothing else. */
  lemma UpAndLeaveEndDrag(c: Carousel)
    ensures Step(c, MouseUp) == Step(c, MouseLeave) == c.(dragging := false)
  {
  }

  /** A drag that returns the pointer to where it was pressed leaves the carousel where it was. */
  lemma DragRoundTrip(c: Carousel, x: int, y: int)
    requires c.attached
    ensures Run(c, [MouseDown(x), MouseMove(y), MouseMove(x)]).scrollLeft == c.scrollLeft
  {
    var down := Step(c, MouseDown(x));
    var moved := Step(down, MouseMove(y));
    assert Run(c, [MouseDown(x), MouseMove(y), MouseMove(x)]) == Run(down, [MouseMove(y), MouseMove(x)]);
    assert Run(down, [MouseMove(y), MouseMove(x)]) == Run(moved, [MouseMove(x)]);
    assert Run(moved, [MouseMove(x)]) == Step(moved, MouseMove(x));
  }

  /** The component instance, its refs and state updated in place by the handlers. */
  class Services {
    const attached: bool
    var scrollLeft: int
    var scrollWidth: int
    var clientWidth: int
    var canScroll: bool
    var pressed: bool
    var holdFrames: nat
    var dragging: bool
    var dragStart: int
    var scrollStart: int
    var resizeListening: bool

    function Model(): Carousel
      reads this
    {
      Carousel(attached, scrollLeft, scrollWidth, clientWidth, canScroll, pressed, holdFrames,
               dragging, dragStart, scrollStart, resizeListening)
    }

    /** Mounting: the state starts idle, then the effect checks the overflow and installs the resize listener. */
    constructor (attached: bool, scrollLeft: int, scrollWidth: int, clientWidth: int)
      ensures Model() == Mounted(attached, scrollLeft, scrollWidth, clientWidth)
    {
      this.attached := attached;
      this.scrollLeft, this.scrollWidth, this.clientWidth := scrollLeft, scrollWidth, clientWidth;
      canScroll, pressed, holdFrames := false, false, 0;
      dragging, dragStart, scrollStart := false, 0, 0;
      resizeListening := true;
      new;
      CheckScroll();
    }

    /** `checkScroll`. */
    method CheckScroll()
      modifies this
      ensures Model() == Checked(old(Model()))
    {
      if attached {
        canScroll := scrollWidth > clientWidth;
      }
    }

    /** The window is resized and the carousel's geometry changes. */
    method Resize(w: int, cw: int)
      modifies this
      ensures Model() == Step(old(Model()), Event.Resize(w, cw))
    {
      scrollWidth, clientWidth := w, cw;
      if resizeListening {
        CheckScroll();
      }
    }

    /** `scrollLeft`. */
    method ScrollLeft()
      modifies this
      ensures Model() == Step(old(Model()), ClickLeft)
    {
      if attached {
        if scrollLeft <= ButtonStep {
          scrollLeft := scrollWidth - clientWidth;
        } else {
          scrollLeft := scrollLeft - ButtonStep;
        }
      }
    }

    /** `scrollRight`. */
    method ScrollRight()
      modifies this
      ensures Model() == Step(old(Model()), ClickRight)
    {
      if attached {
        var maxScroll := scrollWidth - clientWidth;
        var currentScroll := scrollLeft;
        if currentScroll + ButtonStep >= maxScroll {
          scrollLeft := 0;
        } else {
          scrollLeft := scrollLeft + ButtonStep;
        }
      }
    }

    /** `handleScrollButtonDown`; the button exists only while the control is offered. */
    method ButtonDown()
      modifies this
      ensures Model() == Step(old(Model()), Event.ButtonDown)
    {
      if !canScroll {
        return;
      }
      pressed := true;
      if !attached {
        return;
      }
      holdFrames := holdFrames + 1;
    }

    /** `handleScrollButtonUp`, on mouse-up and on mouse-leave of the button. */
    method ButtonUp()
      modifies this
      ensures Model() == Step(old(Model()), Event.ButtonUp)
    {
      if !canScroll {
        return;
      }
      pressed := false;
      if holdFrames > 0 {
        holdFrames := holdFrames - 1;
      }
    }

    /** The browser runs one pending `scroll` callback of the hold loop. */
    method HoldFrame()
      modifies this
      ensures Model() == Step(old(Model()), Frame)
    {
      if holdFrames == 0 {
        return;
      }
      holdFrames := holdFrames - 1;
      if pressed {
        var maxScroll := scrollWidth - clientWidth;
        var currentScroll := scrollLeft;
        if currentScroll + HoldStep >= maxScroll {
          scrollLeft := 0;
        } else {
          scrollLeft := scrollLeft + HoldStep;
        }
        holdFrames := holdFrames + 1;
      }
    }

    /** `handleMouseDown`. */
    method MouseDown(x: int)
      modifies this
      ensures Model() == Step(old(Model()), Event.MouseDown(x))
    {
      dragging := true;
      dragStart := x;
      scrollStart := if attached then scrollLeft else 0;
    }

    /** `handleMouseMove`. */
    method MouseMove(x: int)
      modifies this
      ensures Model() == Step(old(Model()), Event.MouseMove(x))
    {
      if !dragging || !attached {
        return;
      }
      var diff := x - dragStart;
      scrollLeft := scrollStart - diff;
    }

    /** `handleMouseUp` and `handleMouseLeave`. */
    method EndDrag()
      modifies this
      ensures Model() == Step(old(Model()), Event.MouseUp)
      ensures Model() == Step(old(Model()), Event.MouseLeave)
    {
      dragging := false;
    }

    /** The effects' cleanups: the resize listener is removed and the latest hold frame cancelled. */
    method Unmount()
      modifies this
      ensures Model() == Step(old(Model()), Event.Unmount)
    {
      resizeListening := false;
      if holdFrames > 0 {
        holdFrames := holdFrames - 1;
      }
    }
  }
}
