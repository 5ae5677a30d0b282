/**
 * The project detail modal (src/components/ProjectModal.tsx): the project's
 * gallery images are pinned as small notes around the main image, each at one
 * of 13 predefined positions, and at most one of them is enlarged at a time.
 * A thumbnail click toggles it, a click on the backdrop or on the dimming
 * overlay and the Escape key shrink it back, and opening, closing or
 * switching the project resets it.
 */
module ProjectModal {
  import opened Wrappers
  import ProjectImages
  import StringOrder

  // ---------------------------------------------------------------------------
  // Pin positions
  // ---------------------------------------------------------------------------

  /** Which edge of the gallery container a pin is measured from. */
  datatype Side = FromLeft | FromRight

  /** One entry of `PIN_POSITIONS`: the top offset, the horizontal offset and its edge, the tilt in degrees. */
  datatype PinPosition = PinPosition(top: string, side: Side, offset: string, rotate: int)

  const PinPositions: seq<PinPosition> := [
    PinPosition("2%", FromLeft, "0%", -8),
    PinPosition("0%", FromLeft, "30%", 5),
    PinPosition("5%", FromRight, "2%", -4),
    PinPosition("30%", FromLeft, "-4%", 7),
    PinPosition("35%", FromRight, "-2%", -6),
    PinPosition("58%", FromLeft, "0%", 4),
    PinPosition("55%", FromRight, "0%", -9),
    PinPosition("78%", FromLeft, "5%", 6),
    PinPosition("80%", FromRight, "5%", -5),
    PinPosition("75%", FromLeft, "35%", 3),
    PinPosition("15%", FromLeft, "12%", -7),
    PinPosition("48%", FromLeft, "8%", 8),
    PinPosition("65%", FromRight, "8%", -3)
  ]

  /** The position of thumbnail `index`: `PIN_POSITIONS[index % PIN_POSITIONS.length]`. */
  function PinFor(index: nat): PinPosition
  {
    PinPositions[index % |PinPositions|]
  }

  /** Thumbnail positions repeat every 13 thumbnails, and the first 13 all differ. */
  lemma PinLayoutRepeats(index: nat)
    ensures |PinPositions| == 13
    ensures PinFor(index + 13) == PinFor(index)
    ensures PinFor(index) in PinPositions
    ensures forall j :: 0 <= j < 13 && j != index % 13 ==> PinFor(index) != PinPositions[j]
  {
    assert (index + 13) % 13 == index % 13;
  }

  // ---------------------------------------------------------------------------
  // Rendering the gallery
  // ---------------------------------------------------------------------------

  /** A rendered thumbnail: its image, its pin position, and whether it is the enlarged one. */
  datatype Thumbnail = Thumbnail(url: string, pin: PinPosition, enlarged: bool)

  /** `galleryImages.map(...)` over a list of images: one thumbnail per image, in order. */
  function RenderPins(images: seq<string>, enlargedIndex: Option<nat>): (r: seq<Thumbnail>)
    ensures |r| == |images|
    ensures forall i :: 0 <= i < |r| ==>
      r[i].url == images[i] && r[i].pin == PinFor(i) && (r[i].enlarged <==> enlargedIndex == Some(i))
    decreases |images|
  {
    if images == [] then []
    else
      var i := |images| - 1;
      RenderPins(images[..i], enlargedIndex) + [Thumbnail(images[i], PinFor(i), enlargedIndex == Some(i))]
  }

  /** At most one thumbnail is shown enlarged, and none when no index is enlarged. */
  lemma AtMostOneEnlarged(images: seq<string>, enlargedIndex: Option<nat>)
    ensures var r := RenderPins(images, enlargedIndex);
      forall i, j :: 0 <= i < j < |r| ==> !(r[i].enlarged && r[j].enlarged)
    ensures enlargedIndex.None? ==> forall i :: 0 <= i < |images| ==> !RenderPins(images, enlargedIndex)[i].enlarged
  {
  }

  /** The value held in `galleryImages`: an array, or a promise of one. */
  datatype JsValue = JsArray(items: seq<string>) | JsPromise(resolvesTo: seq<string>)

  /** `getGalleryImages` is `async`: calling it yields a promise of the images, never the images. */
  function GetGalleryImages(src: ProjectImages.GlobSources, title: string): JsValue
  {
    JsPromise(ProjectImages.GalleryImages(src, title))
  }

  /** Calling `.map` on the value: a promise has no `map` method, so the call throws a `TypeError`. */
  function MapThumbnails(v: JsValue, enlargedIndex: Option<nat>): Result<seq<Thumbnail>, string>
  {
    match v
    case JsArray(items) => Ok(RenderPins(items, enlargedIndex))
    case JsPromise(_) => Err("TypeError: galleryImages.map is not a function")
  }

  /** The thumbnails the modal renders as written: nothing when closed, otherwise the result of mapping `galleryImages`. */
  function RenderAsWritten(src: ProjectImages.GlobSources, title: string, isOpen: bool, enlargedIndex: Option<nat>): Result<seq<Thumbnail>, string>
  {
    if !isOpen then Ok([]) else MapThumbnails(GetGalleryImages(src, title), enlargedIndex)
  }

  /** As written, every render of an open modal throws, whatever the project and its images. */
  lemma OpenModalThrowsAsWritten(src: ProjectImages.GlobSources, title: string, enlargedIndex: Option<nat>)
    ensures RenderAsWritten(src, title, true, enlargedIndex).Err?
    ensures ProjectImages.GalleryImages(src, title) != [] ==>
      RenderAsWritten(src, title, true, enlargedIndex) != Ok(RenderPins(ProjectImages.GalleryImages(src, title), enlargedIndex))
  {
  }

  /**
   * The thumbnails of an open modal once the promised images have been
   * awaited: one per image of the project's folder, in the gallery's sorted
   * order, each at its pin position.
   */
  function RenderGallery(src: ProjectImages.GlobSources, title: string, enlargedIndex: Option<nat>): (r: seq<Thumbnail>)
    ensures var images := ProjectImages.GalleryImages(src, title);
      |r| == |images| && forall i :: 0 <= i < |r| ==> r[i].url == images[i] && r[i].pin == PinFor(i)
  {
    var v := GetGalleryImages(src, title);
    RenderPins(v.resolvesTo, enlargedIndex)
  }

  /** The images a row of thumbnails shows, in order. */
  function Urls(r: seq<Thumbnail>): seq<string>
  {
    seq(|r|, i requires 0 <= i < |r| => r[i].url)
  }

  /**
   * Awaiting the images shows exactly the project's images, sorted, and each
   * image filed under the project's folder once per time it was filed; a
   * title without a folder shows none.
   */
  lemma RenderGalleryShowsProject(src: ProjectImages.GlobSources, title: string, enlargedIndex: Option<nat>)
    ensures title !in ProjectImages.TitleToFolder ==> RenderGallery(src, title, enlargedIndex) == []
    ensures Urls(RenderGallery(src, title, enlargedIndex)) == ProjectImages.GalleryImages(src, title)
    ensures ProjectImages.FolderFor(title).Some? ==>
      var folder := ProjectImages.FolderFor(title).value;
      var shown := Urls(RenderGallery(src, title, enlargedIndex));
      StringOrder.Sorted(shown)
      && multiset(shown) == multiset(ProjectImages.JobsFiledUnder(ProjectImages.Jobs(src), folder))
  {
    var images := ProjectImages.GalleryImages(src, title);
    var shown := Urls(RenderGallery(src, title, enlargedIndex));
    assert shown == images;
    if title !in ProjectImages.TitleToFolder {
      ProjectImages.UnknownTitleHasNoImages(src, title);
    }
    if ProjectImages.FolderFor(title).Some? {
      ProjectImages.KnownTitleImages(src, title);
    }
  }

  // ---------------------------------------------------------------------------
  // The enlarged thumbnail
  // ---------------------------------------------------------------------------

  /** The props the modal depends on and its `enlargedIndex` state. */
  datatype Modal = Modal(isOpen: bool, title: string, enlargedIndex: Option<nat>)

  datatype Event =
    | Props(isOpen: bool, title: string)  // the parent re-renders the modal
    | ThumbnailClick(index: nat)
    | BackdropClick
    | OverlayClick
    | KeyDown(key: string)

  /** The first render: nothing enlarged. */
  function Mounted(isOpen: bool, title: string): Modal
  {
    Modal(isOpen, title, None)
  }

  function Step(m: Modal, e: Event): Modal
  {
    match e
    case Props(isOpen, title) =>
      // the reset effect runs when `isOpen` or the title changed
      if isOpen != m.isOpen || title != m.title then Modal(isOpen, title, None)
      else m
    case ThumbnailClick(i) =>
      // thumbnails exist only while open; the click does not reach the backdrop
      if !m.isOpen then m
      else m.(enlargedIndex := if m.enlargedIndex == Some(i) then None else Some(i))
    case BackdropClick =>
      if m.isOpen && m.enlargedIndex.Some? then m.(enlargedIndex := None) else m
    case OverlayClick =>
      // the overlay exists only while a thumbnail is enlarged
      if m.isOpen && m.enlargedIndex.Some? then m.(enlargedIndex := None) else m
    case KeyDown(key) =>
      // the key listener is installed only while open
      if m.isOpen && key == "Escape" && m.enlargedIndex.Some? then m.(enlargedIndex := None) else m
  }

  function Run(m: Modal, events: seq<Event>): Modal
    decreases |events|
  {
    if events == [] then m else Run(Step(m, events[0]), events[1..])
  }

  /** Something is enlarged only while the modal is open. */
  ghost predicate Inv(m: Modal)
  {
    m.enlargedIndex.Some? ==> m.isOpen
  }

  lemma {:induction false} RunInv(m: Modal, events: seq<Event>)
    requires Inv(m)
    ensures Inv(Run(m, events))
    decreases |events|
  {
    if events != [] {
      assert Inv(Step(m, events[0]));
      RunInv(Step(m, events[0]), events[1..]);
    }
  }

  /** Clicking thumbnail i enlarges it unless it already was, in which case it shrinks back. */
  lemma ThumbnailToggles(m: Modal, i: nat)
    requires m.isOpen
    ensures Step(m, ThumbnailClick(i)).enlargedIndex == Some(i) <==> m.enlargedIndex != Some(i)
    ensures Step(m, ThumbnailClick(i)).enlargedIndex.None? <==> m.enlargedIndex == Some(i)
  {
  }

  /** Two clicks on the same thumbnail undo each other when it started enlarged, and leave nothing enlarged otherwise. */
  lemma DoubleClick(m: Modal, i: nat)
    requires m.isOpen
    ensures Run(m, [ThumbnailClick(i), ThumbnailClick(i)]).enlargedIndex ==
      if m.enlargedIndex == Some(i) then Some(i) else None
  {
    var once := Step(m, ThumbnailClick(i));
    assert Run(m, [ThumbnailClick(i), ThumbnailClick(i)]) == Run(once, [ThumbnailClick(i)]);
    assert Run(once, [ThumbnailClick(i)]) == Step(once, ThumbnailClick(i));
  }

  /** A backdrop click, an overlay click and Escape each leave nothing enlarged. */
  lemma DismissalsClear(m: Modal)
    requires Inv(m)
    ensures Step(m, BackdropClick).enlargedIndex.None?
    ensures Step(m, OverlayClick).enlargedIndex.None?
    ensures m.isOpen ==> Step(m, KeyDown("Escape")).enlargedIndex.None?
  {
  }

  /** A key other than Escape, or Escape with nothing enlarged, changes nothing. */
  lemma OtherKeysIgnored(m: Modal, key: string)
    requires key != "Escape" || m.enlargedIndex.None?
    ensures Step(m, KeyDown(key)) == m
  {
  }

  /** While the modal is closed, no click or key changes anything. */
  lemma ClosedIgnoresInput(m: Modal, e: Event)
    requires !m.isOpen && !e.Props?
    ensures Step(m, e) == m
  {
  }

  /** Opening, closing or switching the project resets the enlarged thumbnail; re-rendering with the same props keeps it. */
  lemma PropsReset(m: Modal, isOpen: bool, title: string)
    ensures isOpen != m.isOpen || title != m.title ==> Step(m, Props(isOpen, title)).enlargedIndex.None?
    ensures Step(m, Props(isOpen, title)).isOpen == isOpen && Step(m, Props(isOpen, title)).title == title
    ensures isOpen == m.isOpen && title == m.title ==> Step(m, Props(isOpen, title)) == m
  {
  }

  /** The modal instance: its props and `enlargedIndex`, updated in place by the handlers and the reset effect. */
  class ProjectModalView {
    var isOpen: bool
    var title: string
    var enlargedIndex: Option<nat>

    function Model(): Modal
      reads this
    {
      Modal(isOpen, title, enlargedIndex)
    }

    constructor (isOpen: bool, title: string)
      ensures Model() == Mounted(isOpen, title)
    {
      this.isOpen := isOpen;
      this.title := title;
      enlargedIndex := None;
    }

    /** The parent re-renders with new props; the reset effect runs if `isOpen` or the title changed. */
    method SetProps(newOpen: bool, newTitle: string)
      modifies this
      ensures Model() == Step(old(Model()), Props(newOpen, newTitle))
    {
      var changed := newOpen != isOpen || newTitle != title;
      isOpen, title := newOpen, newTitle;
      if changed {
        enlargedIndex := None;
      }
    }

    /** The photo card's click handler. */
    method ClickThumbnail(index: nat)
      modifies this
      ensures Model() == Step(old(Model()), ThumbnailClick(index))
    {
      if !isOpen {
        return;
      }
      var isEnlarged := enlargedIndex == Some(index);
      enlargedIndex := if isEnlarged then None else Some(index);
    }

    /** `handleBackdropClick`. */
    method ClickBackdrop()
      modifies this
      ensures Model() == Step(old(Model()), BackdropClick)
    {
      if isOpen && enlargedIndex.Some? {
        enlargedIndex := None;
      }
    }

    /** The overlay's click handler, followed by the backdrop's as the click bubbles up. */
    method ClickOverlay()
      modifies this
      ensures Model() == Step(old(Model()), OverlayClick)
    {
      if !(isOpen && enlargedIndex.Some?) {
        return;
      }
      enlargedIndex := None;
      ClickBackdrop();
    }

    /** `handleKeyDown`, installed while the modal is open. */
    method KeyDown(key: string)
      modifies this
      ensures Model() == Step(old(Model()), Event.KeyDown(key))
    {
      if isOpen && key == "Escape" && enlargedIndex.Some? {
        enlargedIndex := None;
      }
    }
  }
}
