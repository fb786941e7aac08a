# imani — a Dafny model of the greeting page's logic

The repository is a single scroll-driven greeting page. Almost all of it is
markup, styling and animation-library calls; the logic that can be stated
and proved sits in two places, and this project models both:

- **The time-of-day message selector** (`hooks/useTimedMessage.ts`,
  module `TimedMessage` in `timed_message.dfy`). An hour of the day
  (0..23, modelled as the subset type `Hour`) is classified as morning
  (5–11), afternoon (12–17) or evening (everything else). The theme picks
  one of three fixed messages. The hook keeps the current message as
  state: it starts as the morning message and is replaced on each
  evaluation. `ThemeOf` is the classification as a pure function.
  `MessageSelector.Update` is the hook's evaluation step as a method. It
  assigns the theme step by step, as the source does, and is proved against
  `ThemeOf`. `HourTable` is an independent hour-by-hour table, and a lemma
  proves the classification agrees with it.
- **The page controller** (`components/valentines/ValentinesRose.tsx`).
  - Module `RoseLayout` in `rose_layout.dfy` holds the static gallery and
    the derived layout values. These are `totalScreens`, the mobile
    breakpoint of `checkMobile`, and `maxScale` computed exactly in `real`.
    It also holds the index of the section that the footer reveal is
    attached to.
  - Module `RosePlayback` in `rose_playback.dfy` holds the playback state
    machine. Its state is `hasScrolledRef`, `isPlaying`, `isMobile`,
    whether the first-scroll listener is registered, and an abstract audio
    element: present or absent, a volume, and a log of the play and pause
    requests made to it. Each handler is a pure transition on the `Page`
    value (`OnScroll`, `OnToggle`, `OnResize`), and `Run` folds a sequence
    of events. The lemmas about runs give the one-shot property, the
    toggle involution and the invariant that `isPlaying` mirrors the latest
    request. The class `PageController` holds the same state as mutable
    fields, and each of its handler methods is proved to perform exactly
    the matching transition.

A resize that changes `maxScale` makes the mount effect run again
(`[maxScale]` is its dependency list). Its cleanup removes the scroll
listener and its body registers a new one, while `hasScrolledRef`
survives. The model records this in the `scrollListening` field.
`RosePlayback.ScrollPlaysAtMostOnce` holds over runs that include such
re-registrations.

`handleFirstScroll` never reads `isPlaying`. A pause made before the first
scroll is therefore overridden: the first scroll requests playback and sets
`isPlaying` to true. `RosePlayback.ScrollOverridesEarlierPause` shows the
run toggle, toggle, scroll, which ends with a third request, a play.

## Model

| member | source | states |
|---|---|---|
| `TimedMessage.MessageFor` | hooks/useTimedMessage.ts:14-33 | the table is consistent: the message for theme t has theme t, and it has exactly three colours, each `#` and six hex digits, so `colors[0]` always exists |
| `TimedMessage.Tick` | hooks/useTimedMessage.ts:44-51 | after an evaluation, the stored message is a table entry whose theme is the classified theme of the hour |
| `TimedMessage.ClassificationAgreesWithTable` | hooks/useTimedMessage.ts:44-49 | for every hour 0..23, the if/else classification gives the theme of the independent 24-entry hour table |
| `TimedMessage.ClassificationIsTotal` | hooks/useTimedMessage.ts:44-49 | every hour falls in exactly one window: morning iff 5..11, afternoon iff 12..17, evening (the default) iff 0..4 or 18..23 |
| `TimedMessage.ClassificationBoundaries` | hooks/useTimedMessage.ts:44-49 | the hours on both sides of each switch: 4 evening, 5 and 11 morning, 12 and 17 afternoon, 18 and 23 evening, 0 evening |
| `TimedMessage.TableIsInjective` | hooks/useTimedMessage.ts:14-33 | two themes have the same message iff they are the same theme |
| `TimedMessage.StoredThemeIsClassifiedTheme` | hooks/useTimedMessage.ts:44-51 | the stored message is `messages[theme]`, and its theme is the hour table's entry for that hour |
| `TimedMessage.TickIsIdempotent` | hooks/useTimedMessage.ts:41-52 | two evaluations at the same hour leave the same state as one |
| `TimedMessage.TickChangesIffThemeChanges` | hooks/useTimedMessage.ts:51 | starting from a table message, an evaluation changes the state iff the hour's theme differs from the current theme |
| `TimedMessage.MessageSelector.constructor` | hooks/useTimedMessage.ts:36-38 | before the first evaluation, the state is the morning message |
| `TimedMessage.MessageSelector.Update` | hooks/useTimedMessage.ts:41-52 | the step-by-step theme assignment stores the table message of `ThemeOf(hour)`, whatever the previous state was |
| `TimedMessage.Mount` | hooks/useTimedMessage.ts:36-54 | right after mounting, the state is the message for the hour of the immediate first evaluation |
| `RoseLayout.Screens` | components/valentines/ValentinesRose.tsx:254-298 | the full-height layers are the intro, then one photo section per gallery entry in order, then the trailing spacer |
| `RoseLayout.TotalScreensCountsLayers` | components/valentines/ValentinesRose.tsx:74 | `totalScreens` equals the number of full-height layers rendered, which is one more than the gallery length plus one |
| `RoseLayout.GalleryLayout` | components/valentines/ValentinesRose.tsx:74 | the gallery has 8 entries, so `totalScreens` is 10, the container is 1000vh tall, and the footer reveal attaches to section 7 |
| `RoseLayout.MaxScale` | components/valentines/ValentinesRose.tsx:75-77 | `maxScale` is at most 4 on mobile and at most 8 on desktop, for every gallery length, and always above the starting scale 0.2 |
| `RoseLayout.FooterTrigger` | components/valentines/ValentinesRose.tsx:129-133 | the footer reveal targets the section at index length−1; the result is present iff that section exists, and otherwise the reveal is skipped |
| `RoseLayout.GallerySidesAlternate` | components/valentines/ValentinesRose.tsx:15-56 | entry i is on the left iff i is even |
| `RoseLayout.GalleryKeysAreDistinct` | components/valentines/ValentinesRose.tsx:15-56 | no two entries share an image path, so the list keys are unique |
| `RoseLayout.MobileIsDownwardClosed` | components/valentines/ValentinesRose.tsx:81 | mobile iff the width is below 768: any narrower viewport than a mobile one is mobile, and any wider viewport than a desktop one is desktop |
| `RoseLayout.MaxScaleIsMonotone` | components/valentines/ValentinesRose.tsx:75-77 | in both branches, `maxScale` never decreases as the gallery grows |
| `RoseLayout.MaxScaleCapReached` | components/valentines/ValentinesRose.tsx:75-77 | the mobile cap 4 is reached iff the gallery has at least 9 entries, and the desktop cap 8 iff it has at least 12 |
| `RoseLayout.MaxScaleOfGallery` | components/valentines/ValentinesRose.tsx:75-77 | for the 8-entry gallery, `maxScale` is 3.9 on mobile and 6 on desktop |
| `RoseLayout.DesktopScaleExceedsMobile` | components/valentines/ValentinesRose.tsx:75-77 | for every gallery length, the desktop `maxScale` is strictly larger than the mobile one |
| `RoseLayout.MaxScaleChangesIffBreakpointCrossed` | components/valentines/ValentinesRose.tsx:75-81 | `maxScale` differs between two widths, which re-runs the scroll effect, iff the widths lie on different sides of 768 |
| `RosePlayback.Initial` | components/valentines/ValentinesRose.tsx:66-71 | the first render has not scrolled, is not playing, uses the desktop layout, and has made no audio request |
| `RosePlayback.OnScroll` | components/valentines/ValentinesRose.tsx:86-96 | a scroll activates iff the listener is registered, the page has not scrolled and the audio exists; activation sets volume 0.25, appends one play request, sets `isPlaying` and removes the listener; otherwise nothing changes |
| `RosePlayback.OnToggle` | components/valentines/ValentinesRose.tsx:186-197 | with audio, appends a pause request if playing and a play request otherwise, then flips `isPlaying`; without audio it changes nothing |
| `RosePlayback.OnResize` | components/valentines/ValentinesRose.tsx:79-97 | a resize sets `isMobile` to width < 768 and re-registers the scroll listener iff `maxScale` changed; it touches nothing else, `hasScrolled` included |
| `RosePlayback.ScrollAfterActivationIsInert` | components/valentines/ValentinesRose.tsx:87 | once `hasScrolled` is set, a scroll changes nothing at all |
| `RosePlayback.ActivationEffect` | components/valentines/ValentinesRose.tsx:87-94 | activation sets volume 0.25, issues exactly one play request and sets `isPlaying` to true, whatever it was before |
| `RosePlayback.ScrollWithoutAudioIsInert` | components/valentines/ValentinesRose.tsx:87 | with no audio element, a scroll changes nothing, `hasScrolled` included |
| `RosePlayback.ScrollIsIdempotent` | components/valentines/ValentinesRose.tsx:86-96 | two scroll events leave the same state as one |
| `RosePlayback.StepKeepsActivation` | components/valentines/ValentinesRose.tsx:66 | no event clears `hasScrolled` once it is set, and no event adds or removes the audio element |
| `RosePlayback.HasScrolledPersists` | components/valentines/ValentinesRose.tsx:66-88 | once set, `hasScrolled` stays set along every run of events |
| `RosePlayback.ScrollPlaysAtMostOnce` | components/valentines/ValentinesRose.tsx:86-97 | along any run of scrolls, toggles and resizes, including re-registrations, the first-scroll handler requests playback at most once, and never once the page has scrolled |
| `RosePlayback.FirstScrollFiresExactlyOnce` | components/valentines/ValentinesRose.tsx:86-97 | from any consistent state with audio and no scroll yet, any run containing a scroll gets exactly one play request from the handler and ends scrolled |
| `RosePlayback.RunWithoutAudioIsInert` | components/valentines/ValentinesRose.tsx:187 | with no audio element, no run of events changes anything except the viewport class and the listener registration; both handlers' audio guards are covered |
| `RosePlayback.ToggleTwiceRestores` | components/valentines/ValentinesRose.tsx:186-197 | two toggles restore `isPlaying` and every other field; the log gains pause then play, or play then pause |
| `RosePlayback.ToggleRequest` | components/valentines/ValentinesRose.tsx:188-195 | a toggle appends one request, which is a pause iff `isPlaying` was true, and it negates `isPlaying` |
| `RosePlayback.ToggleWithoutAudioIsInert` | components/valentines/ValentinesRose.tsx:187 | with no audio element, a toggle changes nothing |
| `RosePlayback.ScrollOverridesEarlierPause` | components/valentines/ValentinesRose.tsx:86-93 | toggle then toggle leaves the music paused, but a following first scroll requests play again and sets `isPlaying` |
| `RosePlayback.InitialIsConsistent` | components/valentines/ValentinesRose.tsx:66-71 | the first render satisfies the invariant |
| `RosePlayback.StepPreservesConsistency` | components/valentines/ValentinesRose.tsx:88-95 | every event keeps the invariant: `isPlaying` iff the latest request is play; volume is 0.25 iff scrolled, else the default; no request is made without audio; the listener stays registered until the activation |
| `RosePlayback.RunPreservesConsistency` | components/valentines/ValentinesRose.tsx:188-195 | along every run, `isPlaying` reflects the intent of the latest play or pause request, not confirmed playback |
| `RosePlayback.PageController.constructor` | components/valentines/ValentinesRose.tsx:63-71 | the component starts in the `Initial` state with the listener of the mount effect registered |
| `RosePlayback.PageController.MaxScale` | components/valentines/ValentinesRose.tsx:75-77 | the render's `maxScale` respects the cap of its viewport class |
| `RosePlayback.PageController.CheckMobile` | components/valentines/ValentinesRose.tsx:81 | updates `isMobile` in place, re-registers the scroll listener iff `maxScale` changed, and keeps the playback state |
| `RosePlayback.PageController.HandleFirstScroll` | components/valentines/ValentinesRose.tsx:86-96 | updates the fields in place exactly as `OnScroll` says, and keeps the invariant |
| `RosePlayback.PageController.ToggleMusic` | components/valentines/ValentinesRose.tsx:186-197 | updates the fields in place exactly as `OnToggle` says, and keeps the invariant |
| `RosePlayback.Mount` | components/valentines/ValentinesRose.tsx:79-83 | mounting is the first render followed by the effect's `checkMobile`; the listener is registered and nothing plays |

## Left out

- Scroll-linked animations: the rose's scale, rotation and opacity tween, the intro fade, the per-photo reveals, and the footer reveal's interpolation (ValentinesRose.tsx:99-164). Their meaning is in the animation library and the browser's scroll model. Tearing them down (`ScrollTrigger.getAll().kill()`) is left out for the same reason. Only the index of the footer's trigger section is modelled (`FooterTrigger`).
- The 100 ms `setTimeout` around the footer registration. It is timer plumbing; the number of rendered sections at that moment is a parameter of `FooterTrigger`.
- The one-minute `setInterval` and its `clearInterval`, and `new Date().getHours()`: the hour is an input of `Tick` and `MessageSelector.Update`.
- Whether a play request succeeds, and the `.catch` logging. They depend on the platform's autoplay policy. A request is only an entry in the log.
- The initial volume of the audio element is taken to be 1.0, the media element default. The source never sets it before activation.
- The confetti burst: a fire-and-forget call into a particle library with a fixed path and palette.
- The registration and removal bookkeeping of the resize listener, and the removal of listeners on unmount. This is browser event plumbing. Only whether the first-scroll listener is registered is tracked.
- `maxScale` uses exact rational arithmetic, not IEEE doubles. The double result can differ from the exact value in its last bits; for example, no double equals 3.9 exactly.
- components/valentines/PhotoSection.tsx: a one-way image-loaded flag and class strings. components/valentines/MessageCard.tsx: presentation only. app/page.tsx: a one-line wrapper. None of them is part of this model.
