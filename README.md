# AlOsaimi architecture site: a verified model of its interactive core

This project models the interactive core of the AlOsaimi architecture studio's
website, a React single-page site, and proves properties of that model. It
covers these parts:

- **Project gallery index** (`src/projectImages.ts`), in `project_images.dfy`
  and `string_order.dfy`.
  - Four glob imports of image files are filed by project folder. Two of them
    are filed by a regular expression that captures the folder name. The two
    gas station globs are filed under a fixed key.
  - Each folder's list is sorted with JavaScript's default string order and the
    result is cached.
  - `getGalleryImages` turns an English or Arabic project title into the
    folder's images.
- **Scrolling banner** (`src/hooks/useBannerAnimation.ts`), in
  `banner_animation.dfy`. While the page scrolls, an animation-frame loop
  advances an offset by `speed` each frame. It writes the offset, wrapped at
  2000 px (English) and 1200 px (Arabic), as each banner's translation. After
  100 ms without a scroll event a debounce timeout stops the loop.
- **Services carousel** (`src/components/Services.tsx`), in
  `services_carousel.dfy`: the overflow check and its resize listener, the
  wrapping step buttons, the press-and-hold loop that moves 8 px per frame, and
  drag-to-scroll.
- **Intro reveal** (`src/hooks/useIntroAnimation.ts`), in
  `intro_animation.dfy`: the scroll lock, the three timers at 100, 1100 and
  3400 ms, and the growth loop of the circle.
- **Reveal-on-scroll hook** (`src/hooks/useScrollAnimation.ts`), in
  `scroll_animation.dfy`: option defaults, and `isVisible` with and without
  `triggerOnce`.
- **Navigation highlight** (the IntersectionObserver in `src/App.tsx`), in
  `active_section.dfy`.
- **Project modal** (`src/components/ProjectModal.tsx`), in
  `project_modal.dfy`: pin positions, the rendered thumbnails, and the single
  enlarged thumbnail with the events that dismiss it.

Each stateful hook or component is modelled twice:

- as a pure state machine: a datatype, `Step` for one event, `Run` for a
  sequence of events, and lemmas about them;
- as a class with the component's refs and state as fields. Each of its
  methods performs one handler in place and ensures that the new state is
  `Step` of the old state.

Animation frames, timers, observer callbacks and DOM events are all events
whose order the caller chooses. Pending frame requests and timeouts are
counted rather than assumed to be one at a time. For the banner, "at most one
frame and one timeout are pending" is a proved invariant (`BannerAnimation.Inv`).
The carousel can have several hold loops pending, as the source can when a
second button press arrives before a release. `Scheduling` (`scheduling.dfy`) holds the cancellation of the latest pending request, shared by the banner and the carousel. `Wrappers` (`wrappers.dfy`) holds `Option` and `Result`.

`scrollLeft` and `scrollRight` in `Services.tsx` (lines 142-163) are defined
but not bound to any element in the component's markup. The model still gives
them events (`ClickLeft`, `ClickRight`), following their definitions.

## Model

| member | source | states |
|---|---|---|
| StringOrder.LeqReflexive | src/projectImages.ts:73 | the default sort order puts every string no later than itself |
| StringOrder.LeqTotal | src/projectImages.ts:73 | any two strings are comparable in the default sort order |
| StringOrder.LeqAntisymmetric | src/projectImages.ts:73 | two strings that each sort no later than the other are equal |
| StringOrder.LeqTransitive | src/projectImages.ts:73 | the default sort order is transitive |
| StringOrder.Insert | src/projectImages.ts:73 | inserting adds exactly that one element to the list's multiset |
| StringOrder.InsertSorted | src/projectImages.ts:73 | inserting into a sorted list keeps it sorted |
| StringOrder.SortStrings | src/projectImages.ts:73 | `sort()` leaves a permutation of the list |
| StringOrder.SortStringsSorted | src/projectImages.ts:73 | `sort()` leaves the list sorted |
| StringOrder.FirstIsLeast | src/projectImages.ts:73 | the head of a sorted list sorts no later than any of its elements |
| StringOrder.SortedTail | src/projectImages.ts:73 | the tail of a sorted list is sorted |
| StringOrder.SameFirst | src/projectImages.ts:73 | two sorted permutations of each other start with the same element |
| StringOrder.SortedUnique | src/projectImages.ts:73 | a list has exactly one sorted permutation, so any correct engine sort gives this model's result |
| StringOrder.SortIgnoresArrivalOrder | src/projectImages.ts:73 | lists with the same elements sort to the same list |
| StringOrder.SortKeepsSorted | src/projectImages.ts:73 | sorting a sorted list changes nothing |
| ProjectImages.StripJpgOf | src/projectImages.ts:65-68 | a path ending in ".jpg" loses exactly that extension |
| ProjectImages.StripJpgSound | src/projectImages.ts:65-68 | whatever is stripped is the path without its ".jpg" |
| ProjectImages.CaptureStemOf | src/projectImages.ts:65-68 | a stem of a directory part, '/' and digits captures the digits (file-number pattern) or the directory's folder (folder pattern) |
| ProjectImages.CaptureStemSound | src/projectImages.ts:65-68 | every accepted stem splits into a directory part, '/' and a digit string |
| ProjectImages.FolderOfComplete | src/projectImages.ts:65-66 | the folder group of `head + marker + folder` is `folder`, for any segment `folder` |
| ProjectImages.AfterLastSlash | src/projectImages.ts:65-66 | what follows the last '/' of a path has no '/' |
| ProjectImages.FolderOfSound | src/projectImages.ts:65-66 | every accepted folder is a non-empty segment without '/' that directly follows the marker |
| ProjectImages.CaptureFolderComplete | src/projectImages.ts:65-66 | the residential and medical patterns capture exactly the folder of `…marker/<folder>/<digits>.jpg` |
| ProjectImages.CaptureFolderSound | src/projectImages.ts:48-53 | whatever the folder pattern captures is a segment, and the path has the shape `head + marker + folder + "/" + digits + ".jpg"` |
| ProjectImages.CaptureNumberComplete | src/projectImages.ts:67-68 | the gas station pattern captures the digits of the file name; both calls pass a fixed key, so this capture never decides where a URL is filed |
| ProjectImages.Urls | src/projectImages.ts:40 | one URL per entry, in entry order |
| ProjectImages.ResolveContents | src/projectImages.ts:43-55 | after `resolveGlob`, each key's list is its old list followed by the URLs filed under it, in order; a key is present exactly when it was before or received a URL |
| ProjectImages.FixedKeyTakesAll | src/projectImages.ts:44-46 | with a truthy fixed key every URL is filed under that key, whatever its path, and nothing under any other key |
| ProjectImages.FilingOneEntry | src/projectImages.ts:47-53 | an entry whose path does not match leaves the gallery unchanged; a matching one creates its folder's list if absent, appends its URL, and leaves every other key alone |
| ProjectImages.ResolveJobsSnoc | src/projectImages.ts:64-69 | running one more `resolveGlob` files its entries into the gallery so far |
| ProjectImages.ResolveJobsContents | src/projectImages.ts:64-69 | after the four globs, each key's list is what the globs filed under it, glob after glob |
| ProjectImages.JobsFiledUnderAppend | src/projectImages.ts:64-69 | the URLs filed by two groups of globs are those of the first group followed by those of the second |
| ProjectImages.JobsFiledUnderPermutation | src/projectImages.ts:37-42 | running the globs' filing loops in any completion order files the same URLs under each key, up to order |
| ProjectImages.LookupSortAll | src/projectImages.ts:71-75 | after the sort loop each key's list is the sorted old list, and an absent key stays empty |
| ProjectImages.SortedJobsContents | src/projectImages.ts:71-75 | after the sort, a key's list is the sorted list of what was filed under it |
| ProjectImages.BuiltGalleryContents | src/projectImages.ts:59-78 | each list `buildGallery` returns is sorted and holds exactly the URLs the four globs filed under its key |
| ProjectImages.GalleryIgnoresCompletionOrder | src/projectImages.ts:64-75 | whatever order the four concurrent loads complete in, the sorted gallery is the same |
| ProjectImages.BuiltGalleryIdempotentSort | src/projectImages.ts:71-75 | sorting the built gallery again changes nothing |
| ProjectImages.GalleryTable.constructor | src/projectImages.ts:62 | a new gallery record is empty |
| ProjectImages.GalleryTable.Push | src/projectImages.ts:44-53 | `gallery[key]` is created empty if missing, then gets `url` appended; a new key is added to the key order |
| ProjectImages.GalleryTable.ResolveGlob | src/projectImages.ts:43-55 | the filing loop leaves the record equal to `Resolve` of the old record over the entries |
| ProjectImages.GalleryTable.SortList | src/projectImages.ts:73 | sorting one list in place replaces it by its sorted version and changes nothing else |
| ProjectImages.GalleryStore.constructor | src/projectImages.ts:27 | the module-level cache starts empty |
| ProjectImages.GalleryStore.BuildGallery | src/projectImages.ts:59-78 | returns the built gallery and leaves it in the cache; a non-empty cache is returned unchanged |
| ProjectImages.GalleryStore.SortEachList | src/projectImages.ts:71-75 | every list is sorted in place and copied into the cache, which then equals the sorted gallery |
| ProjectImages.GalleryStore.FileAll | src/projectImages.ts:62-69 | the four `resolveGlob` calls file into a fresh record in the order they are listed |
| ProjectImages.GalleryStore.GetGalleryImages | src/projectImages.ts:81-113 | returns the folder's images or `[]`; a title without a folder leaves the cache untouched |
| ProjectImages.TitlesShareFolder | src/projectImages.ts:83-106 | the English and Arabic project titles the site shows, position by position, lead to the same folder |
| ProjectImages.ShownTitlesHaveFolders | src/translations.ts:86-300 | every project title the English and Arabic content show has a gallery folder |
| ProjectImages.UnknownTitleHasNoImages | src/projectImages.ts:108-109 | a title outside the table yields `[]`, whatever the globs hold |
| ProjectImages.KnownTitleImages | src/projectImages.ts:111-112 | a known title yields its folder's URLs, sorted and each as often as it was filed; `[]` exactly when none were filed |
| BannerAnimation.JsRem | src/hooks/useBannerAnimation.ts:21-24 | JavaScript's `%` is below the divisor in size and carries the sign of the dividend |
| BannerAnimation.Translation | src/hooks/useBannerAnimation.ts:21-24 | for a non-negative offset the written translation lies in (-width, 0] |
| BannerAnimation.TranslationLoops | src/hooks/useBannerAnimation.ts:21-24 | an offset one loop width further shows the same translation, for both banners |
| BannerAnimation.MountedInv | src/hooks/useBannerAnimation.ts:11-14 | the freshly mounted hook is consistent: nothing pending, nothing scrolling |
| BannerAnimation.StepInv | src/hooks/useBannerAnimation.ts:28-60 | every handler keeps at most one frame and one timeout pending, both exactly while scrolling, none after teardown, and the written translations matching the offset |
| BannerAnimation.RunInv | src/hooks/useBannerAnimation.ts:28-60 | that invariant holds after any sequence of events |
| BannerAnimation.ScrollSchedulesOneFrame | src/hooks/useBannerAnimation.ts:36-52 | a scroll starts scrolling with exactly one frame pending, requests no second frame while scrolling, and leaves exactly one live timeout |
| BannerAnimation.FrameAdvancesBySpeed | src/hooks/useBannerAnimation.ts:28-34 | a frame while scrolling adds exactly `speed` and re-requests; when not scrolling it changes nothing |
| BannerAnimation.TimeoutStopsLoop | src/hooks/useBannerAnimation.ts:46-51 | the debounce timeout stops scrolling, cancels the frame and keeps the offset |
| BannerAnimation.TeardownIsFinal | src/hooks/useBannerAnimation.ts:56-60 | teardown leaves no listener, frame or timeout, and no later event changes anything |
| BannerAnimation.OffsetNeverDecreases | src/hooks/useBannerAnimation.ts:30 | with a non-negative speed the offset never decreases |
| BannerAnimation.FrozenUntilScroll | src/hooks/useBannerAnimation.ts:28-51 | once scrolling has stopped, the offset stays fixed until the next scroll event |
| BannerAnimation.TranslationsInRange | src/hooks/useBannerAnimation.ts:17-26 | from a consistent state with non-negative offset and speed, the banners' translations stay in (-2000, 0] and (-1200, 0] |
| BannerAnimation.BannerHook.constructor | src/hooks/useBannerAnimation.ts:8-14 | the refs start at the mounted state for the given speed: offset 0, not scrolling, nothing pending, listener installed |
| BannerAnimation.BannerHook.ApplyTransform | src/hooks/useBannerAnimation.ts:17-26 | writes both banners' translations for the current offset and changes nothing else; both banner elements are taken to be rendered |
| BannerAnimation.BannerHook.HandleScroll | src/hooks/useBannerAnimation.ts:36-52 | performs the scroll step of the state machine in place |
| BannerAnimation.BannerHook.Animate | src/hooks/useBannerAnimation.ts:28-34 | performs the frame step in place |
| BannerAnimation.BannerHook.OnTimeout | src/hooks/useBannerAnimation.ts:46-51 | performs the timeout step in place |
| BannerAnimation.BannerHook.Teardown | src/hooks/useBannerAnimation.ts:56-60 | performs the teardown step in place |
| ServicesCarousel.WrapForwardBounds | src/components/Services.tsx:152-163 | a forward step wraps to 0 exactly when it would reach the end; otherwise it moves forward by the step and stays short of the end |
| ServicesCarousel.LeftTargetBounds | src/components/Services.tsx:142-150 | `scrollLeft` from beyond 300 px stays positive and moves back; from 300 px or less it jumps to the end |
| ServicesCarousel.ButtonsUndoEachOther | src/components/Services.tsx:142-163 | away from both ends, left undoes right and right undoes left |
| ServicesCarousel.ButtonsJoinEnds | src/components/Services.tsx:142-163 | left from the start reaches the end and right from the end reaches the start |
| ServicesCarousel.HoldWrapsToStart | src/components/Services.tsx:171-184 | holding from a non-negative position moves 8 px per frame and is back at 0 after `FramesToWrap` frames, the first count of 8 px steps that reaches the end |
| ServicesCarousel.DragFollowsPointer | src/components/Services.tsx:128-132 | the content moves one pixel against each pixel of pointer travel, and the pointer's start restores the start position |
| ServicesCarousel.MountedControlMatchesOverflow | src/components/Services.tsx:81-87 | on mount the control is offered exactly when the content is wider than the viewport, and never without the element |
| ServicesCarousel.RunControlMatchesOverflow | src/components/Services.tsx:81-89 | while the resize listener is installed, the control keeps matching the overflow through any events |
| ServicesCarousel.HoldFrameSteps | src/components/Services.tsx:171-182 | a frame while held moves by the hold rule and re-requests |
| ServicesCarousel.ReleasedStaysPut | src/components/Services.tsx:187-193 | after release no frame, resize, release or drag end moves the carousel, and pending frames only retire |
| ServicesCarousel.ReleaseCancels | src/components/Services.tsx:187-193 | release clears the flag and cancels one pending frame |
| ServicesCarousel.PressReleaseBalanced | src/components/Services.tsx:165-193 | a press followed by a release leaves the flag down, the pending frames and the position as they were |
| ServicesCarousel.MoveOnlyWhileDragging | src/components/Services.tsx:128-132 | a move without a drag changes nothing; with one it applies the drag rule |
| ServicesCarousel.UpAndLeaveEndDrag | src/components/Services.tsx:134-140 | mouse-up and mouse-leave both end the drag and do nothing else |
| ServicesCarousel.DragRoundTrip | src/components/Services.tsx:122-132 | a drag whose pointer comes back to where it was pressed leaves the carousel where it was |
| ServicesCarousel.Services.constructor | src/components/Services.tsx:75-90 | mounting starts idle, checks the overflow once and installs the resize listener |
| ServicesCarousel.Services.CheckScroll | src/components/Services.tsx:82-86 | `checkScroll` sets the control from the overflow when the element exists |
| ServicesCarousel.Services.Resize | src/components/Services.tsx:88 | a resize re-checks the overflow while the listener is installed |
| ServicesCarousel.Services.ScrollLeft | src/components/Services.tsx:142-150 | performs the left-button step in place |
| ServicesCarousel.Services.ScrollRight | src/components/Services.tsx:152-163 | performs the right-button step in place |
| ServicesCarousel.Services.ButtonDown | src/components/Services.tsx:165-185 | raises the flag and requests the first hold frame when the element exists |
| ServicesCarousel.Services.ButtonUp | src/components/Services.tsx:187-193 | lowers the flag and cancels the latest hold frame |
| ServicesCarousel.Services.HoldFrame | src/components/Services.tsx:171-182 | one hold frame steps and re-requests only while the flag is raised |
| ServicesCarousel.Services.MouseDown | src/components/Services.tsx:122-126 | starts a drag at the pointer and the current position, 0 without the element |
| ServicesCarousel.Services.MouseMove | src/components/Services.tsx:128-132 | moves the content by the drag rule while dragging |
| ServicesCarousel.Services.EndDrag | src/components/Services.tsx:134-140 | mouse-up and mouse-leave end the drag |
| ServicesCarousel.Services.Unmount | src/components/Services.tsx:89 | the cleanup removes the resize listener and cancels the latest hold frame |
| IntroAnimation.PhaseAtMonotone | src/hooks/useIntroAnimation.ts:34-71 | the phase the timers have reached never regresses as time passes |
| IntroAnimation.MountedInv | src/hooks/useIntroAnimation.ts:16-31 | the intro starts in phase `initial`, not complete, with a 150 px circle and the scroll locked |
| IntroAnimation.StepInv | src/hooks/useIntroAnimation.ts:34-79 | every event keeps the phase equal to the one the clock has reached, the pending timers equal to those not yet due, the loop within `expanding` or later, and the lock within the intro |
| IntroAnimation.RunInv | src/hooks/useIntroAnimation.ts:34-79 | that invariant holds after any sequence of events |
| IntroAnimation.PhaseNeverRegresses | src/hooks/useIntroAnimation.ts:34-71 | no event moves the phase backwards or withdraws `introComplete` |
| IntroAnimation.CompletionUnlocks | src/hooks/useIntroAnimation.ts:66-71 | at 3400 ms the phase is `done`, the intro complete and the scroll free |
| IntroAnimation.TimelineOrder | src/hooks/useIntroAnimation.ts:34-63 | the phase is `initial` before 100 ms, `drawing` until 1100 ms and `expanding` until 3400 ms; reaching 1100 ms starts the loop at 150 px |
| IntroAnimation.FrameGrows | src/hooks/useIntroAnimation.ts:45-50 | a frame adds 25 px per 16 ms elapsed and shows the new size |
| IntroAnimation.FramesNeverShrink | src/hooks/useIntroAnimation.ts:45-60 | over any run of frames whose timestamps never go backwards the circle never shrinks, the shown size follows the loop's size, and a released lock stays released |
| IntroAnimation.LargeCircleUnlocks | src/hooks/useIntroAnimation.ts:52-55 | a frame that makes the circle larger than 300 px frees the scroll |
| IntroAnimation.LoopStopsWhenCovered | src/hooks/useIntroAnimation.ts:57-59 | the loop requests another frame exactly while the circle is smaller than 1.5 times the larger window dimension |
| IntroAnimation.NoLoopNoChange | src/hooks/useIntroAnimation.ts:62 | without a requested frame, a frame event changes nothing |
| IntroAnimation.CleanupClearsTimers | src/hooks/useIntroAnimation.ts:73-79 | cleanup clears all three timers and the scroll lock |
| IntroAnimation.CleanupIsFinal | src/hooks/useIntroAnimation.ts:73-79 | after the intended cleanup nothing but the clock changes |
| IntroAnimation.CleanupAsWrittenLeavesLoop | src/hooks/useIntroAnimation.ts:73-79 | as written, the frame loop outlives cleanup and can release a later mount's scroll lock |
| IntroAnimation.IntroHook.constructor | src/hooks/useIntroAnimation.ts:16-36 | mounting starts the state hooks, locks the scroll and sets three timers |
| IntroAnimation.IntroHook.Advance | src/hooks/useIntroAnimation.ts:34-71 | the timers due by the new time fire in the order they were set |
| IntroAnimation.IntroHook.DrawTimer | src/hooks/useIntroAnimation.ts:34-36 | the draw timer, once due, sets `drawing` |
| IntroAnimation.IntroHook.ExpandTimer | src/hooks/useIntroAnimation.ts:39-63 | the expand timer, once due, sets `expanding`, resets the loop's locals and requests a frame |
| IntroAnimation.IntroHook.CompleteTimer | src/hooks/useIntroAnimation.ts:66-71 | the completion timer, once due, sets `done`, completes the intro and frees the scroll |
| IntroAnimation.IntroHook.Frame | src/hooks/useIntroAnimation.ts:45-60 | performs one run of `animate` in place |
| IntroAnimation.IntroHook.Unmount | src/hooks/useIntroAnimation.ts:73-79 | the intended cleanup, which also stops the loop |
| ScrollAnimation.ResolveOptions | src/hooks/useScrollAnimation.ts:12 | each option left undefined takes its default (0.1, `true`, "0px 0px -50px 0px"); a given option is kept |
| ScrollAnimation.IntersectingReveals | src/hooks/useScrollAnimation.ts:22-26 | an intersecting entry makes the element visible, and stops observing exactly with `triggerOnce` |
| ScrollAnimation.LeavingHidesOnlyWithoutTriggerOnce | src/hooks/useScrollAnimation.ts:27-29 | a non-intersecting entry hides the element without `triggerOnce` and changes nothing with it |
| ScrollAnimation.FirstEntryDecides | src/hooks/useScrollAnimation.ts:21 | only the first entry of a batch is read |
| ScrollAnimation.VisibilityMirrorsEntry | src/hooks/useScrollAnimation.ts:20-31 | without `triggerOnce`, visibility equals the first entry's intersection and observation goes on |
| ScrollAnimation.NoElementNeverVisible | src/hooks/useScrollAnimation.ts:17-18 | while the ref holds no element, through re-runs that still find none, nothing is observed and the element never becomes visible |
| ScrollAnimation.TriggerOnceIsOneWay | src/hooks/useScrollAnimation.ts:24-26 | with `triggerOnce`, once visible always visible |
| ScrollAnimation.UnmountIsFinal | src/hooks/useScrollAnimation.ts:36-38 | after cleanup no observer batch changes anything |
| ScrollAnimation.RevealHook.constructor | src/hooks/useScrollAnimation.ts:14-34 | starts hidden and observes the element if it is attached |
| ScrollAnimation.RevealHook.OnEntries | src/hooks/useScrollAnimation.ts:20-31 | performs the observer callback in place |
| ScrollAnimation.RevealHook.Rerun | src/hooks/useScrollAnimation.ts:16-39 | changed options re-run the effect: the old observation ends, the ref is read again, and a new observation starts exactly when it holds an element |
| ScrollAnimation.RevealHook.Unmount | src/hooks/useScrollAnimation.ts:36-38 | the cleanup stops observing |
| ActiveSection.LastSelected | src/App.tsx:28-37 | the result is the id of the last intersecting entry with an id, or the current section when there is none |
| ActiveSection.AfterBatchSnoc | src/App.tsx:29 | one more entry is one more step of the `forEach` |
| ActiveSection.LastWriteWins | src/App.tsx:28-37 | walking the batch front to back leaves the last intersecting entry with an id active |
| ActiveSection.NoSelectionKeepsSection | src/App.tsx:30-35 | a batch with no intersecting entry that has an id keeps the active section |
| ActiveSection.NonIntersectingIrrelevant | src/App.tsx:30 | a non-intersecting entry changes nothing, wherever it sits in the batch |
| ActiveSection.UpTo | src/App.tsx:39-40 | the set holds exactly the indices of the found sections |
| ActiveSection.App.constructor | src/App.tsx:19-40 | `activeSection` starts at "about" and every found section is observed |
| ActiveSection.App.ObserveAll | src/App.tsx:39-40 | every found section is added to the observation set |
| ActiveSection.App.OnBatch | src/App.tsx:28-37 | the callback leaves the active section the batch selects and the observation set unchanged |
| ActiveSection.App.Cleanup | src/App.tsx:42-44 | every found section is removed from the observation set |
| ProjectModal.PinLayoutRepeats | src/components/ProjectModal.tsx:28-42 | there are 13 positions, thumbnail positions repeat every 13, and the first 13 thumbnails all get different positions |
| ProjectModal.RenderPins | src/components/ProjectModal.tsx:183-185 | one thumbnail per image, in order, at position `index % 13`, enlarged exactly when its index is the enlarged one |
| ProjectModal.AtMostOneEnlarged | src/components/ProjectModal.tsx:185 | at most one thumbnail is enlarged, and none when no index is set |
| ProjectModal.OpenModalThrowsAsWritten | src/components/ProjectModal.tsx:46 | as written, every render of the open modal throws, because it maps over a promise |
| ProjectModal.RenderGallery | src/components/ProjectModal.tsx:183-185 | with the images awaited, one thumbnail per gallery image, in order, at its pin position |
| ProjectModal.RenderGalleryShowsProject | src/components/ProjectModal.tsx:183-185 | the modal shows exactly the project's images, sorted and each as often as it was filed; an unknown title shows none |
| ProjectModal.RunInv | src/components/ProjectModal.tsx:49-73 | a thumbnail is enlarged only while the modal is open |
| ProjectModal.ThumbnailToggles | src/components/ProjectModal.tsx:217-220 | a click enlarges the thumbnail unless it already was, and then shrinks it |
| ProjectModal.DoubleClick | src/components/ProjectModal.tsx:217-220 | two clicks on one thumbnail restore it if it was enlarged, and otherwise leave nothing enlarged |
| ProjectModal.DismissalsClear | src/components/ProjectModal.tsx:54-71 | the backdrop, the overlay and Escape each leave nothing enlarged |
| ProjectModal.OtherKeysIgnored | src/components/ProjectModal.tsx:55-60 | any other key, or Escape with nothing enlarged, changes nothing |
| ProjectModal.ClosedIgnoresInput | src/components/ProjectModal.tsx:61-73 | while closed, no click or key changes anything |
| ProjectModal.PropsReset | src/components/ProjectModal.tsx:49-51 | opening, closing or switching the project resets the enlarged thumbnail; the same props keep it |
| ProjectModal.ProjectModalView.constructor | src/components/ProjectModal.tsx:45 | nothing is enlarged at first |
| ProjectModal.ProjectModalView.SetProps | src/components/ProjectModal.tsx:49-51 | new props reset the enlarged thumbnail when `isOpen` or the title changed |
| ProjectModal.ProjectModalView.ClickThumbnail | src/components/ProjectModal.tsx:217-220 | performs the thumbnail toggle in place |
| ProjectModal.ProjectModalView.ClickBackdrop | src/components/ProjectModal.tsx:67-71 | `handleBackdropClick` clears the enlarged thumbnail |
| ProjectModal.ProjectModalView.ClickOverlay | src/components/ProjectModal.tsx:250-256 | the overlay click, bubbling to the backdrop, clears the enlarged thumbnail |
| ProjectModal.ProjectModalView.KeyDown | src/components/ProjectModal.tsx:54-65 | Escape while open clears the enlarged thumbnail |

## Left out

- Glob imports, lazy loaders and `Promise.all` become the lists of (path, URL) pairs they resolve to. The four filing loops run one after another in a chosen order, and `JobsFiledUnderPermutation` and `GalleryIgnoresCompletionOrder` cover every order. Two `buildGallery` calls that overlap in time are not modelled.
- The cache and the gallery share their arrays in the source. The model copies them, so aliasing between the two is not modelled.
- `titleToFolder` and the `gallery` record (`src/projectImages.ts`, lines 51-52 and 62) are read as dictionaries. Keys inherited from `Object.prototype` (such as "constructor") are not modelled. In the source a project folder named "constructor" would find the inherited function in `gallery`, and the `.push` at line 52 would throw; the model files such a folder like any other.
- The default sort compares UTF-16 code units. The model compares characters, which gives the same order for every character in the Basic Multilingual Plane, including all the Arabic titles. Strings with surrogate pairs are not modelled.
- The browser clamps `scrollLeft` to [0, scrollWidth - clientWidth], and `scrollBy` is smooth. The model records the commanded position and does not model either.
- ServicesCarousel.HoldWrapsToStart: the bound `current + 8·(n-1) < maxScroll` is stated only for a start before the end. From a start at or past the end the first frame wraps at once.
- The second effect of `Services.tsx` (lines 93-116) defines a `scroll` closure that nothing calls. Only its cleanup, which cancels the latest hold frame, is modelled.
- `isButtonPressed` (`Services.tsx`, lines 78, 167 and 189) only styles the button and is not modelled. The ref `isScrollButtonPressed` is modelled.
- React state batching and effect timing are taken as immediate: each handler's `setState` is visible to the next event.
- BannerAnimation.TranslationLoops: stated for the two widths the hook uses (2000 and 1200), not for an arbitrary width.
- BannerAnimation.TranslationsInRange: stated for any consistent state with non-negative offset and speed, which includes the mounted state. It is not stated for the mounted state alone.
- BannerAnimation.BannerHook.ApplyTransform: the source writes each banner's transform only when its element is attached (`useBannerAnimation.ts`, lines 20 and 23). The model assumes both banner elements are rendered and always writes both.
- BannerAnimation: `speed` and the offset are integers. In the source `speed` is a JavaScript number, so a fractional speed would give fractional offsets and a floating-point `%`; that case is not modelled. The hook's default speed is 2.
- Scheduling.Cancel: cancelling drops one pending request from the count. The source cancels the one id stored in a ref, which may already have run. With two carousel hold loops pending, a release cancels the later loop's frame, and a mouse-leave then cancels the same id again to no effect, while the model's count drops to zero. Which of several pending loops a cancellation stops is not modelled.
- A change of `speed` re-runs the banner effect. That is not modelled: the speed is fixed for the hook's lifetime.
- IntroAnimation.Step, Inv, StepInv, RunInv, PhaseNeverRegresses and the IntroHook class model the corrected cleanup, which also cancels the frame loop (see Findings). The cleanup as written is `CleanupAsWritten`, and `Inv`'s clause that no loop runs after unmount does not hold for it.
- Animation-frame timestamps and `performance.now()` are reals measured from mount; the clock is a millisecond count. Floating-point rounding is not modelled: sizes and times are exact reals.
- The intro effect also forces the page to the top and disables scroll restoration (`useIntroAnimation.ts`, lines 21-27). Window scrolling is not modelled.
- IntersectionObserver geometry (`threshold`, `rootMargin`, the root) only decides which entries intersect. It is not modelled: entries arrive as events with their flags.
- An empty observer batch, which the observer never delivers, is taken to change nothing in `useScrollAnimation`.
- `useScrollAnimation` re-runs its effect when any option changes. The model's `Rerun` event carries only `triggerOnce` and whether the ref holds an element, because the other two options affect only geometry.
- ProjectModal's markup (navigation bar, text, styling, close button and `onClose`) is not modelled. Only the gallery thumbnails, the enlarged index and their handlers are.
- ProjectModal.Step: a `ThumbnailClick(i)` event is not bounded by the number of images, so `enlargedIndex` can name a thumbnail that does not exist. In the page a click can only come from a rendered thumbnail; `RenderPins` then shows nothing enlarged.
- ProjectModal's Escape handler calls `stopPropagation`, which affects other listeners and is not modelled.
- The contact form, translations, the news and service modals, the top navigation, the custom cursor, and the Tailwind and Vite configuration are not part of this model.

## Findings

| source | as written | input that shows it | evidently intended | confidence | as-written member | corrected member |
|---|---|---|---|---|---|---|
| src/components/ProjectModal.tsx:46 | `getGalleryImages` is `async`, so `galleryImages` holds a Promise, and line 183 calls `.map` on it | opening the modal for any project, e.g. "AMARA VILLA": the render throws a `TypeError` | await the promise (in an effect, into state) and render the resolved image list | not executed; follows from the `async` signature at src/projectImages.ts:81 | ProjectModal.OpenModalThrowsAsWritten | ProjectModal.RenderGalleryShowsProject |
| src/hooks/useIntroAnimation.ts:73-79 | the cleanup clears the three timers but not the animation-frame loop started at line 62 | unmount 1100 ms after mount in a 1000 x 1000 window, then mount again: the old loop's frame 160 ms later (a 400 px circle) clears the new mount's scroll lock | cancel the pending animation frame in the cleanup as well | not executed | IntroAnimation.CleanupAsWrittenLeavesLoop | IntroAnimation.CleanupIsFinal |
