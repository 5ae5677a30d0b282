/**
 * The reveal-on-scroll hook (src/hooks/useScrollAnimation.ts). An element is
 * observed for intersection with the viewport; `isVisible` turns true when it
 * intersects. With `triggerOnce` (the default) the element is then
 * unobserved, so it stays visible; without it, leaving the viewport hides it
 * again.
 *
 * A batch of observer entries is the sequence of their `isIntersecting`
 * flags; the observer's geometry (threshold, root margin) decides those flags
 * and is not modelled.
 */
module ScrollAnimation {
  import opened Wrappers

  /** The hook's options after defaulting. */
  datatype Options = Options(threshold: real, triggerOnce: bool, rootMargin: string)

  const DefaultThreshold: real := 0.1
  const DefaultRootMargin: string := "0px 0px -50px 0px"

  /** The destructuring with defaults: an option left undefined takes its default. */
  function ResolveOptions(threshold: Option<real>, triggerOnce: Option<bool>, rootMargin: Option<string>): (o: Options)
    ensures threshold.None? ==> o.threshold == 0.1
    ensures triggerOnce.None? ==> o.triggerOnce
    ensures rootMargin.None? ==> o.rootMargin == "0px 0px -50px 0px"
    ensures threshold.Some? ==> o.threshold == threshold.value
    ensures triggerOnce.Some? ==> o.triggerOnce == triggerOnce.value
    ensures rootMargin.Some? ==> o.rootMargin == rootMargin.value
  {
    Options(
      if threshold.Some? then threshold.value else DefaultThreshold,
      if triggerOnce.Some? then triggerOnce.value else true,
      if rootMargin.Some? then rootMargin.value else DefaultRootMargin)
  }

  /**
   * The hook's state: `isVisible`, whether the element is attached to the
   * ref, whether the observer is currently observing it, and the
   * `triggerOnce` the current effect was created with.
   */
  datatype Reveal = Reveal(isVisible: bool, attached: bool, observing: bool, triggerOnce: bool)

  datatype Event =
    | Entries(batch: seq<bool>)   // the observer's callback with the entries' `isIntersecting` flags
    | Rerun(triggerOnce: bool, attached: bool)  // the options changed: cleanup, then the effect runs again and reads the ref anew
    | Unmount                     // the effect's cleanup

  /** After the first render and the effect: not visible; observed only if the element exists. */
  function Mounted(attached: bool, triggerOnce: bool): Reveal
  {
    Reveal(false, attached, attached, triggerOnce)
  }

  /**
   * The observer callback. Only the first entry of the batch is read; an
   * empty batch, which the observer never delivers, would make the
   * destructured entry undefined and is taken to change nothing.
   */
  function OnEntries(s: Reveal, batch: seq<bool>): Reveal
  {
    if !s.observing || batch == [] then s
    else if batch[0] then s.(isVisible := true, observing := !s.triggerOnce)
    else if !s.triggerOnce then s.(isVisible := false)
    else s
  }

  function Step(s: Reveal, e: Event): Reveal
  {
    match e
    case Entries(batch) => OnEntries(s, batch)
    case Rerun(once, element) => s.(attached := element, observing := element, triggerOnce := once)
    case Unmount => s.(observing := false)
  }

  function Run(s: Reveal, events: seq<Event>): Reveal
    decreases |events|
  {
    if events == [] then s else Run(Step(s, events[0]), events[1..])
  }

  /** An intersecting entry makes the element visible; with `triggerOnce` it also stops the observation. */
  lemma IntersectingReveals(s: Reveal, rest: seq<bool>)
    requires s.observing
    ensures Step(s, Entries([true] + rest)).isVisible
    ensures s.triggerOnce ==> !Step(s, Entries([true] + rest)).observing
    ensures !s.triggerOnce ==> Step(s, Entries([true] + rest)).observing
  {
  }

  /** A non-intersecting entry hides the element without `triggerOnce` and changes nothing with it. */
  lemma LeavingHidesOnlyWithoutTriggerOnce(s: Reveal, rest: seq<bool>)
    requires s.observing
    ensures !s.triggerOnce ==> !Step(s, Entries([false] + rest)).isVisible
    ensures s.triggerOnce ==> Step(s, Entries([false] + rest)) == s
  {
  }

  /** Only the first entry of a batch is read: the rest of the batch never matters. */
  lemma FirstEntryDecides(s: Reveal, first: bool, rest: seq<bool>)
    ensures Step(s, Entries([first] + rest)) == Step(s, Entries([first]))
  {
  }

  /** Without `triggerOnce`, visibility follows the first entry of each delivered batch. */
  lemma VisibilityMirrorsEntry(s: Reveal, batch: seq<bool>)
    requires s.observing && !s.triggerOnce && batch != []
    ensures Step(s, Entries(batch)).isVisible == batch[0]
    ensures Step(s, Entries(batch)).observing
  {
  }

  /** An event after which the ref still holds no element: everything except re-running the effect with one. */
  predicate KeepsDetached(e: Event)
  {
    e.Rerun? ==> !e.attached
  }

  /** While no element is attached nothing is ever observed, so the element never becomes visible. */
  lemma {:induction false} NoElementNeverVisible(s: Reveal, events: seq<Event>)
    requires !s.attached && !s.observing && !s.isVisible
    requires forall i :: 0 <= i < |events| ==> KeepsDetached(events[i])
    ensures !Run(s, events).isVisible && !Run(s, events).observing
    decreases |events|
  {
    if events != [] {
      NoElementNeverVisible(Step(s, events[0]), events[1..]);
    }
  }

  /** An event that leaves `triggerOnce` on: everything except re-running the effect with it off. */
  predicate KeepsTriggerOnce(e: Event)
  {
    e.Rerun? ==> e.triggerOnce
  }

  /** With `triggerOnce`, once visible the element stays visible for good. */
  lemma {:induction false} TriggerOnceIsOneWay(s: Reveal, events: seq<Event>)
    requires s.triggerOnce && s.isVisible
    requires forall i :: 0 <= i < |events| ==> KeepsTriggerOnce(events[i])
    ensures Run(s, events).isVisible && Run(s, events).triggerOnce
    decreases |events|
  {
    if events != [] {
      TriggerOnceIsOneWay(Step(s, events[0]), events[1..]);
    }
  }

  /** The cleanup unobserves the element; no later batch changes anything. */
  lemma {:induction false} UnmountIsFinal(s: Reveal, events: seq<Event>)
    requires forall i :: 0 <= i < |events| ==> events[i].Entries?
    ensures Run(Step(s, Unmount), events) == Step(s, Unmount)
    decreases |events|
  {
    if events != [] {
      assert Step(Step(s, Unmount), events[0]) == Step(s, Unmount);
      UnmountIsFinal(s, events[1..]);
    }
  }

  /** The hook instance: `isVisible` and the observation, updated in place by the observer and the effect. */
  class RevealHook {
    var isVisible: bool
    var attached: bool
    var observing: bool
    var triggerOnce: bool

    function Model(): Reveal
      reads this
    {
      Reveal(isVisible, attached, observing, triggerOnce)
    }

    constructor (attached: bool, triggerOnce: bool)
      ensures Model() == Mounted(attached, triggerOnce)
    {
      isVisible := false;
      this.attached := attached;
      this.triggerOnce := triggerOnce;
      observing := attached;
    }

    /** The observer's callback. */
    method OnEntries(batch: seq<bool>)
      modifies this
      ensures Model() == Step(old(Model()), Entries(batch))
    {
      if !observing || batch == [] {
        return;
      }
      var isIntersecting := batch[0];
      if isIntersecting {
        isVisible := true;
        if triggerOnce {
          observing := false;
        }
      } else if !triggerOnce {
        isVisible := false;
      }
    }

    /** The options changed: the old observer lets go, the ref is read again, and a new observer observes the element it holds. */
    method Rerun(once: bool, element: bool)
      modifies this
      ensures Model() == Step(old(Model()), Event.Rerun(once, element))
    {
      observing := false;
      triggerOnce := once;
      attached := element;
      if attached {
        observing := true;
      }
    }

    /** The effect's cleanup. */
    method Unmount()
      modifies this
      ensures Model() == Step(old(Model()), Event.Unmount)
    {
      observing := false;
    }
  }
}
